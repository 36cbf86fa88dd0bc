# HMCL Rust runtime host: a verified model

HMCL's Rust runtime host lets a launcher written in Java run plugins written in Rust, either as a library inside the
launcher or in a process of their own. This project models the parts of it that decide what travels between the two
sides and when foreign code may run, and proves what they are for.

* **Bridge Value v1** (`Bytes`, `Text`, `BridgeValue`, `WireParser`, `Codec`, `Limits`, `Fixtures`). The values, their
  canonical bytes (a subset of the "Formats" section of the MessagePack specification, with UTF-8 strings as in
  section 4 of RFC 3629 and finite binary64 floats as in section 3.4 of IEEE 754-2019) and the three budgets. The
  encoder and decoder classes, with their buffers, offsets and counters, are proved against a pure writer and a pure
  reader, and these are proved to be inverse to each other in both directions, budgets included. `Limits` gives the
  bounds as numbers and `Fixtures` the bytes both sides are held to.
* **The process protocol** (`Protocol`, `Frames`, `Replies`). Messages in any field order, frames, and streams of
  frames under any schedule of short reads, interrupts and faults.
* **SDK concurrency** (`HostLease`, `VacantIds`, `CallbackRegistry`, `Session`, `Context`, `Runtime`). Each protocol
  is a transition system over any number of threads, one step for each lock-protected region or thread-local update,
  with spurious wake-ups; the regions are also methods of classes. `Context` puts leases and callbacks together,
  `Runtime` puts the session slot over every context it ever built. Each operation that runs with nothing else going
  on is shown to do what it is for.
* **The embedded engine** (`Engine`, `Allocations`). The life of a payload, the ordered registry and its close; the
  allocation table as an ownership ledger, and one whole invocation from the engine through the SDK and back.
* **The stdio server** (`HostErrors`, `ServerTrace`, `Server`). The serve loop and the nested callbacks as a class over
  the two streams, whose log of events is shown to obey a protocol automaton and to be what the bytes of the two streams
  say, and whose responses are shown to be those of the lifecycle, command by command.
* **Object handles** (`HandleLedger`) as a reference ledger, and **the Java handle tables** (`Decimals`,
  `JavaEngines`) under arbitrary results of native code.

`Options`, `Sequences` and `Counting` hold what several modules share. Where a module has both a class and a
transition system, the methods' contracts are stated with the functions the steps use, and again by fields and inputs
alone.

Three things the code does are worth knowing before reading the table.

* Callback identifiers of the server come from a 64-bit counter that wraps. They strictly increase exactly as long as
  at most 2^63 calls are made; `ServerTrace.IdsRepeatAfterTheWrap` gives the first repetition.
* `RustNativeEngine.close` and `RustRuntimeEngine.close` set `closed` before they call out. If destroying the native
  engine throws, its tables keep their contents and sessions still resolve; if a process close throws, the payloads
  before it and the embedded engine are never closed, and a second close does nothing.
* A close of the callback registry can return before everything is terminal exactly when it finds the registry closed
  and something pending (`CallbackRegistry.ReturnsEarlyExactly`): it has nothing to drain while the close before it is
  still marking. `CallbackRegistry.LaterCloseReturnsEarly` is such a run. The session protocol deactivates each context
  once, so there it does not happen.

## Model

| member | source | states |
|---|---|---|
| Text.IsValidTypeName | crates/hmcl-plugin-sdk/src/value.rs:117-139 | the flag-carrying scan accepts exactly the grammar: a lower-case letter first, alphanumeric runs joined by single dots or dashes, at most 128 bytes |
| Text.RequireCode | crates/hmcl-runtime-protocol/src/lib.rs:626-652 | the same scan with dashes only accepts exactly the error-code grammar |
| Text.ScannedIffName | crates/hmcl-plugin-sdk/src/value.rs:117-139 | what a scan of neighbouring bytes can see is equivalent to the recursive grammar of runs and separators, both ways |
| Text.ErrorCodesAreDotlessTypeNames | crates/hmcl-runtime-protocol/src/lib.rs:626-652 | the error codes are exactly the type names without a dot |
| Text.Truncate | crates/hmcl-rust-host-process/src/server.rs:328-335 | an over-long message is cut at the last character boundary not beyond 4096 bytes: the result is a valid UTF-8 prefix and at most three bytes shorter than the limit |
| Text.BoundaryPrefixIsValid | crates/hmcl-rust-host-process/src/server.rs:330-334 | cutting a UTF-8 string at a character boundary leaves a UTF-8 string |
| Text.Utf8IsScalars | crates/hmcl-plugin-sdk/src/value.rs:432-435 | the byte strings accepted as text are exactly the encodings of sequences of Unicode scalar values |
| Text.BlankIsWhiteSpace | crates/hmcl-runtime-protocol/src/lib.rs:599-606 | a text is blank exactly when it is a sequence of code points with the White_Space property |
| BridgeValue.WireCodeRoundTrip | crates/hmcl-plugin-sdk/src/error.rs:35-62 | every error category is recovered from its wire code |
| BridgeValue.SizeIsLength | crates/hmcl-plugin-sdk/src/value.rs:157-270 | the cost function predicts the number of bytes of every encoding |
| BridgeValue.EncodingSize | crates/hmcl-plugin-sdk/src/value.rs:4-9 | every encoding is between content + 3 and content + 160 bytes per value long, so at most 27,262,976 bytes and no 32-bit length can overflow |
| Limits.LeavesEncode | crates/hmcl-plugin-sdk/src/value.rs:163-217 | each value without children encodes exactly within its own limit, given as a number: string and byte lengths, handle identifiers, finite bit patterns of floats |
| Limits.FiniteRanges | crates/hmcl-plugin-sdk/src/value.rs:170-177 | a float is finite exactly on two ranges of bit patterns, below the infinities of either sign |
| Limits.NestingLimit | crates/hmcl-plugin-sdk/src/value.rs:157-160 | arrays nest 31 deep and no deeper |
| Limits.ElementLimit | crates/hmcl-plugin-sdk/src/value.rs:185-190 | a container has up to 1,024 elements and no more |
| Limits.ValueLimit | crates/hmcl-plugin-sdk/src/value.rs:157-161 | a value consists of up to 65,536 values, itself included, and no more |
| Limits.ContentLimits | crates/hmcl-plugin-sdk/src/value.rs:191-236 | strings, byte strings and keys share one budget of 16,777,216 bytes, and equal keys are refused |
| Limits.WordBytes | crates/hmcl-plugin-sdk/src/value.rs:245-270 | lengths are written most significant byte first |
| Fixtures.NullBytes | crates/hmcl-plugin-sdk/tests/ownership.rs:238-241 | the three bytes of null |
| Fixtures.CompositeBytes | crates/hmcl-plugin-sdk/tests/ownership.rs:244-272 | the exact bytes of a map with a string, a handle and an error, as the Java side writes them |
| Fixtures.ErrorBytes | crates/hmcl-plugin-sdk/tests/ownership.rs:275-296 | the exact bytes of every error category |
| WireParser.ReadsBack | crates/hmcl-plugin-sdk/src/value.rs:304-378 | decoding an encoding followed by anything gives the value back, spends the same budgets and consumes exactly the encoding |
| WireParser.ReadMeans | crates/hmcl-plugin-sdk/src/value.rs:304-463 | whatever the decoder accepts at any depth and budget is the one encoding of the value it returns, and that value fits the same depth and budget |
| WireParser.EncodeThenDecode | crates/hmcl-plugin-sdk/src/value.rs:100-114 | every value that encodes decodes back to itself |
| WireParser.DecodeThenEncode | crates/hmcl-plugin-sdk/src/value.rs:100-114 | every accepted byte string re-encodes to the identical bytes: the wire form is canonical and both sides keep the same budgets |
| WireParser.DecodesExactlyEncodings | crates/hmcl-plugin-sdk/src/value.rs:100-114 | decoding gives a value exactly when encoding that value gives the bytes |
| WireParser.EncodingsArePrefixFree | crates/hmcl-plugin-sdk/src/value.rs:100-114 | no encoding is a proper prefix of another |
| Codec.Encoder.PutValue | crates/hmcl-plugin-sdk/src/value.rs:157-217 | the encoder with its running counters succeeds exactly when the value fits depth and budgets, appends its canonical bytes and charges exactly its cost |
| Codec.Encoder.PutItems | crates/hmcl-plugin-sdk/src/value.rs:185-190 | the array loop over elements, with the same guarantee |
| Codec.Encoder.PutEntries | crates/hmcl-plugin-sdk/src/value.rs:191-202 | the map loop: it succeeds exactly when the entries fit and no key repeats |
| Codec.Encoder.PutEntry | crates/hmcl-plugin-sdk/src/value.rs:195-201 | one key and its value within the remaining budgets |
| Codec.Encoder.PutHandle | crates/hmcl-plugin-sdk/src/value.rs:203-213 | a handle is written only when its identifiers and type name are valid, and costs no content |
| Codec.Encoder.AddContent | crates/hmcl-plugin-sdk/src/value.rs:219-231 | the content budget is charged only when both the individual and the total limit allow it |
| Codec.Encoder.PutString | crates/hmcl-plugin-sdk/src/value.rs:233-236 | a string is written with its length when both limits allow it |
| Codec.Encoder.PutMetadata | crates/hmcl-plugin-sdk/src/value.rs:238-243 | metadata strings are limited but never charged to content |
| Codec.Encoder.PutBlob | crates/hmcl-plugin-sdk/src/value.rs:179-184 | a byte string is written with its length when both limits allow it |
| Codec.Encoder.ContainerLength | crates/hmcl-plugin-sdk/src/value.rs:252-258 | containers of more than 1,024 entries are refused |
| Codec.Decoder.GetValue | crates/hmcl-plugin-sdk/src/value.rs:304-378 | the decoder with its offset and counters agrees with the pure reader on every input, its offset only moves forward and stays in range |
| Codec.Decoder.GetItems | crates/hmcl-plugin-sdk/src/value.rs:340-347 | the array loop of the decoder |
| Codec.Decoder.GetEntries | crates/hmcl-plugin-sdk/src/value.rs:348-361 | the map loop of the decoder, refusing a repeated key |
| Codec.Decoder.GetHandle | crates/hmcl-plugin-sdk/src/value.rs:362-370 | a handle is read back only when it is valid |
| Codec.Decoder.TakeBytes | crates/hmcl-plugin-sdk/src/value.rs:394-402 | bytes are taken only when the input has them |
| Codec.Decoder.GetString | crates/hmcl-plugin-sdk/src/value.rs:412-416 | a string is read only within its limit and the content budget, and only when it is UTF-8 |
| Codec.Decoder.AddContent | crates/hmcl-plugin-sdk/src/value.rs:451-463 | the decoder charges content under the same two limits as the encoder |
| Codec.EncodeValue | crates/hmcl-plugin-sdk/src/value.rs:100-105 | encoding succeeds or fails as the specification says, and what it returns decodes to the value |
| Codec.DecodeValue | crates/hmcl-plugin-sdk/src/value.rs:107-114 | decoding accepts exactly the encodings: an accepted input re-encodes to itself, a refused one is the encoding of no value |
| Protocol.KindRoundTrip | crates/hmcl-runtime-protocol/src/lib.rs:247-318 | the fourteen message kinds are told apart by their names |
| Protocol.ValidByKind | crates/hmcl-runtime-protocol/src/lib.rs:180-243 | which messages are valid, kind by kind: parity of the identifier, ranges of numbers, blank and over-long texts |
| Protocol.WireNames | crates/hmcl-runtime-protocol/src/lib.rs:247-318 | the kind name and the named fields of every body |
| Protocol.BodyMeansFields | crates/hmcl-runtime-protocol/src/lib.rs:320-399 | a payload decodes to a body exactly when it holds that body's fields, in any order, and the body is valid |
| Protocol.MessageMeansSpelling | crates/hmcl-runtime-protocol/src/lib.rs:71-84 | a value decodes to a message exactly when it spells that message's envelope and payload, each in any field order |
| Protocol.EnvelopeMeans | crates/hmcl-runtime-protocol/src/lib.rs:490-509 | the exact-field check and the field lookups succeed exactly on a reordering of the envelope |
| Protocol.ReorderingCostsNothing | crates/hmcl-runtime-protocol/src/lib.rs:490-509 | reordering the fields of a map changes neither its cost nor its well-formedness |
| Protocol.MessageRoundTrip | crates/hmcl-runtime-protocol/src/lib.rs:27-84 | every message that encodes decodes back to itself |
| Protocol.FieldOrderIsIgnored | crates/hmcl-runtime-protocol/src/lib.rs:490-509 | decoding the encoding of any value gives a message exactly when the value spells it |
| Protocol.DecodedMessagesReencode | crates/hmcl-runtime-protocol/src/lib.rs:53-84 | whatever decodes re-encodes, canonically, in the same number of bytes, and decodes to the same message |
| Frames.FrameReadsBack | crates/hmcl-runtime-protocol/src/lib.rs:440-472 | a written frame reads back as its message and leaves what follows untouched |
| Frames.FrameMeans | crates/hmcl-runtime-protocol/src/lib.rs:440-461 | a stream starts with a frame exactly when it starts with a big-endian length, not zero and not over 16,777,216, and a message of that length |
| Fixtures.HelloFrame | crates/hmcl-runtime-protocol/tests/protocol.rs:6-37 | the exact 111 bytes of the frame of a hello |
| Frames.CutFrameIsBroken | crates/hmcl-runtime-protocol/src/lib.rs:440-461 | a proper nonempty piece of a frame is an error, never a clean end and never a message |
| Frames.StreamReadsBack | crates/hmcl-runtime-protocol/src/lib.rs:440-472 | reading the concatenation of any list of frames gives exactly that list and then a clean end |
| Frames.PrefixReadsWholeFrames | crates/hmcl-runtime-protocol/src/lib.rs:440-487 | any prefix of a stream yields its whole frames and ends cleanly only on a frame boundary |
| Frames.Reader.ReadFrame | crates/hmcl-runtime-protocol/src/lib.rs:440-461 | under any schedule of short reads and interrupts the method returns the first frame of the bytes |
| Frames.Reader.ReadExact | crates/hmcl-runtime-protocol/src/lib.rs:475-487 | a required remainder is read whole, or its absence is told apart from a fault |
| Frames.Reader.ReadAll | crates/hmcl-runtime-protocol/src/lib.rs:440-461 | with no fault in the schedule, reading to the end returns exactly the frames of the bytes and says whether they end cleanly |
| Frames.Writer.WriteFrame | crates/hmcl-runtime-protocol/src/lib.rs:463-472 | a rejected message puts no byte on the stream; a fault leaves a proper piece of the frame |
| HostLease.HostState.Enter | crates/hmcl-plugin-sdk/src/lib.rs:80-96 | a thread is admitted exactly when the host is active or it holds a lease, and the counter has room; the counter then goes up by one |
| HostLease.AdmissionIsExact | crates/hmcl-plugin-sdk/src/lib.rs:80-97 | over all runs: a thread that asks is counted in exactly under that condition, and otherwise nothing changes |
| HostLease.LeaseThenDrop | crates/hmcl-plugin-sdk/src/lib.rs:80-149 | over all runs: a granted lease that is dropped with nothing in between leaves everything as it was |
| HostLease.DeactivateWaitsExactly | crates/hmcl-plugin-sdk/src/lib.rs:105-117 | a deactivate returns at once exactly when nothing is in flight, and ends admission either way |
| HostLease.LastExitWakes | crates/hmcl-plugin-sdk/src/lib.rs:139-148 | the last lease to go wakes every waiting deactivate, which then returns |
| HostLease.HostState.Exit | crates/hmcl-plugin-sdk/src/lib.rs:139-148 | the counter goes down and reaching zero notifies |
| HostLease.OnlyHoldersEnterAfterClose | crates/hmcl-plugin-sdk/src/lib.rs:80-117 | over all runs: once a deactivate has begun, and until the host is freed, a thread is admitted only if it holds a lease already |
| HostLease.InvIsKept | crates/hmcl-plugin-sdk/src/lib.rs:80-149 | every step of every thread keeps the counter equal to the sum of all depths plus the threads caught between their two updates |
| HostLease.CounterIsExact | crates/hmcl-plugin-sdk/src/lib.rs:80-149 | in every run: the counter is exact, no expectation fails or underflows, and nobody sleeps on a quiet host |
| HostLease.QuiescedForever | crates/hmcl-plugin-sdk/src/lib.rs:105-117 | once a deactivate has returned no lease is held, and none is granted until the host is freed, although the nested read happens before the lock |
| HostLease.QuietStep | crates/hmcl-plugin-sdk/src/lib.rs:80-103 | a stale read of the depth map lets nobody in |
| HostLease.ReusedAddressIsClean | crates/hmcl-plugin-sdk/src/lib.rs:80-86 | a host at a reused address starts with no thread remembering a depth for it |
| HostLease.HoldersReenter | crates/hmcl-plugin-sdk/src/lib.rs:81-95 | a thread that holds a lease is admitted again even after deactivation has begun |
| VacantIds.AlwaysVacant | crates/hmcl-plugin-sdk/src/future.rs:111-129 | a nonzero unused identifier is always found, for every next identifier including zero and the wrap-around: the first free one in order |
| VacantIds.FindVacant | crates/hmcl-plugin-sdk/src/future.rs:111-125 | the search loop computes that identifier, all candidates before it being taken |
| VacantIds.AdvanceIsInjective | crates/hmcl-plugin-sdk/src/future.rs:127-129 | successive candidates are distinct until the whole range has been walked |
| CallbackRegistry.Registry.Pair | crates/hmcl-plugin-sdk/src/future.rs:41-67 | pair refuses exactly when the registry is closed or full, so the branch without a vacant identifier is never taken |
| CallbackRegistry.Registry.Remove | crates/hmcl-plugin-sdk/src/future.rs:99-108 | only the very entry registered under the identifier is removed |
| CallbackRegistry.Registry.Drain | crates/hmcl-plugin-sdk/src/future.rs:78-86 | close takes every registered entry off the table and closes it for good |
| CallbackRegistry.Cell.Complete | crates/hmcl-plugin-sdk/src/future.rs:144-185 | completion succeeds exactly when the entry is pending and still registered with an open registry; the error tells a completed entry from a cancelled one |
| CallbackRegistry.Cell.Cancel | crates/hmcl-plugin-sdk/src/future.rs:228-242 | only the call that finds the entry pending wins, and it alone removes the entry |
| CallbackRegistry.CompletionSteps | crates/hmcl-plugin-sdk/src/future.rs:144-179 | the interleaved steps of a completion, left alone, amount to what the method does in one piece |
| CallbackRegistry.CancelSteps | crates/hmcl-plugin-sdk/src/future.rs:228-250 | so do those of a cancel or a drop that finds its entry pending: it is cancelled, woken, taken off the table if still listed, and nothing else changes |
| CallbackRegistry.WaitReturnsDecided | crates/hmcl-plugin-sdk/src/future.rs:207-226 | over all runs: a wait returns exactly when its entry has been decided, with that outcome |
| CallbackRegistry.InvIsKept | crates/hmcl-plugin-sdk/src/future.rs:41-248 | every step of pair, complete, cancel, drop, wait and close, in any interleaving, keeps the registry invariant |
| CallbackRegistry.StepEvolves | crates/hmcl-plugin-sdk/src/future.rs:144-248 | no step changes the outcome of a terminal entry, reopens a closed registry or adds an entry to it |
| CallbackRegistry.OneOutcome | crates/hmcl-plugin-sdk/src/future.rs:144-248 | in every run at most one of "complete returned Ok" and "cancel returned true" holds for an entry, matched by its state; a pending entry off the table is on the list of the close that drained it; nobody sleeps on a terminal entry; the failed upgrade is unreachable for a pending one; at most 1,024 are registered |
| CallbackRegistry.PairIsRefusedWhenClosedOrFull | crates/hmcl-plugin-sdk/src/future.rs:41-67 | in every run a pair registers its entry exactly when the registry is open with room, under an identifier nobody uses, disturbing no other |
| CallbackRegistry.DecisionIsFinal | crates/hmcl-plugin-sdk/src/future.rs:155-179 | after complete has decided, every later poll and wait gives that result, or cancellation if the entry had been unregistered |
| CallbackRegistry.CancellationIsFinal | crates/hmcl-plugin-sdk/src/future.rs:228-248 | after a winning cancel or drop every later poll and wait gives cancellation, and no completion succeeds |
| CallbackRegistry.TerminalForever | crates/hmcl-plugin-sdk/src/future.rs:193-225 | a terminal entry keeps its state and its counted outcome in every continuation |
| CallbackRegistry.MarkedMeansFinished | crates/hmcl-plugin-sdk/src/future.rs:77-97 | over all runs with the registry closed: everything is terminal exactly when no entry that a close has still to mark is pending |
| CallbackRegistry.FirstCloseReturnsFinished | crates/hmcl-plugin-sdk/src/future.rs:77-97 | the close that finds the registry open returns only with every entry terminal, and before that every pending entry is one it has still to mark |
| CallbackRegistry.ReturnsEarlyExactly | crates/hmcl-plugin-sdk/src/future.rs:77-97 | over all runs: when a close takes the table, it can return before everything is terminal exactly when it finds the registry closed and something pending |
| CallbackRegistry.LaterCloseReturnsEarly | crates/hmcl-plugin-sdk/src/future.rs:77-97 | the run in which a later close returns with an entry pending, and everything then becomes terminal with a list not yet marked |
| CallbackRegistry.FinishedForever | crates/hmcl-plugin-sdk/src/future.rs:41-97 | from then on no entry is added and none is pending |
| CallbackRegistry.NeverDeadlocked | crates/hmcl-plugin-sdk/src/future.rs:99-108 | a call that is not asleep can move, or waits for one that can, or for one that waits for one that can: the lock order never deadlocks |
| Session.InvocationGate.Admit | crates/hmcl-plugin-sdk/src/lib.rs:542-552 | the gate admits exactly while it accepts and the counter has room, whatever is in flight, and counts one more |
| Session.AdmittedExactly | crates/hmcl-plugin-sdk/src/lib.rs:796-808 | over all runs: an invoke that has found a session is admitted exactly when the counter has room, and refused only otherwise |
| Session.InstalledExactly | crates/hmcl-plugin-sdk/src/lib.rs:722-753 | over all runs: an initialize installs its session exactly when it finds the slot empty twice and its plugin succeeds in between |
| Session.InitializeAlone | crates/hmcl-plugin-sdk/src/lib.rs:722-753 | an initialize with nothing else going on installs exactly what it built |
| Session.InvokeAlone | crates/hmcl-plugin-sdk/src/lib.rs:796-829 | an invoke with nothing else going on runs the plugin once and leaves the session as it was |
| Session.ShutdownAlone | crates/hmcl-plugin-sdk/src/lib.rs:843-883 | a shutdown with nothing else going on shuts the plugin down, drops it and deactivates its context, once each, and empties the slot |
| Session.NoAdmissionAfterClose | crates/hmcl-plugin-sdk/src/lib.rs:542-559 | over all runs: after the gate is closed it stays closed and no further invocation of that session starts |
| Session.LastLeaveWakes | crates/hmcl-plugin-sdk/src/lib.rs:563-577 | over all runs: a leave never underflows, leaves the count at the invocations still in flight, and when that is zero nobody is left asleep and every waiter gets through |
| Session.InvIsKept | crates/hmcl-plugin-sdk/src/lib.rs:531-608 | every step of any number of initialize, invoke and shutdown activations keeps the strong count, the gate count and the phase of every session exact |
| Session.UnwrapSucceeds | crates/hmcl-plugin-sdk/src/lib.rs:860-869 | when the wait loop has ended the taker's is the only strong reference left, because the Arc is dropped before the count |
| Session.NeverTheLast | crates/hmcl-plugin-sdk/src/lib.rs:597-608 | an invocation that drops its Arc never drops the last one |
| Session.EachSessionEndsOnce | crates/hmcl-plugin-sdk/src/lib.rs:843-883 | in every interleaving try_unwrap succeeds, each session's plugin is shut down and dropped once, and every invocation on it has returned before |
| Session.EachContextQuietsOnce | crates/hmcl-plugin-sdk/src/lib.rs:610-634 | every context is deactivated at most once: by the initialize that failed with it, or by the shutdown that took its session, after the plugin was dropped |
| Session.WrongPluginChangesNothing | crates/hmcl-plugin-sdk/src/lib.rs:853-859 | a shutdown that names another plugin puts the session back where it was |
| Session.NoLostWakeup | crates/hmcl-plugin-sdk/src/lib.rs:561-577 | with nothing in flight the waiting shutdown can go on and does not sleep |
| Context.InvIsKept | crates/hmcl-plugin-sdk/src/lib.rs:198-242 | leases and registry keep their invariants together: nobody pairs without a lease, and the registry closes only on a quiet host |
| Context.DeactivatedMeansDead | crates/hmcl-plugin-sdk/src/lib.rs:339-342 | when a deactivate has returned and no other is closing, no lease is held and every pair is terminal |
| Context.QuietForGood | crates/hmcl-plugin-sdk/src/lib.rs:237-247 | from then on no host callback runs or starts, no pair is issued, every pair is terminal and none is pending |
| Runtime.InvIsKept | crates/hmcl-plugin-sdk/src/lib.rs:700-883 | the session slot and every context it built keep their invariants together |
| Runtime.SilenceAfterDeactivation | crates/hmcl-plugin-sdk/src/lib.rs:724-753 | after a shutdown that took a session, or an initialize that failed with its context built, nothing reaches the host through any clone of that context, for ever, and the plugin of a taken session was shut down and dropped |
| Engine.EmbeddedPayload.Enable | crates/hmcl-rust-host-native/src/embedded.rs:266-295 | initialize runs exactly from the loaded state and enables exactly when it succeeds; an enabled or disabled payload is enabled without it, a finished one refused |
| Engine.EmbeddedPayload.Disable | crates/hmcl-rust-host-native/src/embedded.rs:297-309 | no callback runs; it succeeds exactly from the enabled and the disabled state |
| Engine.EmbeddedPayload.Invoke | crates/hmcl-rust-host-native/src/embedded.rs:311-341 | an enabled payload runs the invoke callback and returns its status; any other is refused and runs nothing |
| Engine.EmbeddedPayload.ShutdownForUnload | crates/hmcl-rust-host-native/src/embedded.rs:343-356 | an enabled payload is refused, a disabled one shut down by one callback whose status decides, any other is shut down without one |
| Engine.EmbeddedPayload.ForceShutdown | crates/hmcl-rust-host-native/src/embedded.rs:358-366 | a payload that is up is shut down by one callback whose status decides, any other without one |
| Engine.EmbeddedPayload.ShutdownOnce | crates/hmcl-rust-host-native/src/embedded.rs:368-387 | one shutdown callback, whose failure is kept as a final state |
| Engine.InsertKeepsOrder | crates/hmcl-rust-host-native/src/embedded.rs:84-96 | loading appends a new greatest identifier; the one that would overflow is never handed out |
| Engine.RemoveKeepsOrder | crates/hmcl-rust-host-native/src/embedded.rs:132-135 | removing an identifier keeps the load order strictly increasing and equal to the key set |
| Sequences.WithoutJoins | crates/hmcl-rust-host-native/src/embedded.rs:131-136 | taking an identifier out of the load order joins what is before it and what is after it |
| Engine.ReversedDescends | crates/hmcl-rust-host-native/src/embedded.rs:149-154 | the list close takes is strictly decreasing and has the same members |
| Engine.InvIsKept | crates/hmcl-rust-host-native/src/embedded.rs:65-184 | every step of every thread keeps the engine invariant |
| Engine.CallbacksInOrder | crates/hmcl-rust-host-native/src/embedded.rs:266-388 | in every run invoke runs only while enabled, initialize succeeds at most once and before anything else, shutdown is called at most once and only after it |
| Engine.EnterRuns | crates/hmcl-rust-host-native/src/embedded.rs:266-388 | over all runs: which callback a thread runs once it has the payload's lock, for every operation and state, and that it runs it |
| Engine.CallAlone | crates/hmcl-rust-host-native/src/embedded.rs:311-341 | an invoke of an enabled payload runs its plugin and leaves it enabled whatever that returns |
| Engine.EnableAlone | crates/hmcl-rust-host-native/src/embedded.rs:266-295 | the first enable initializes, and enables exactly when that succeeds |
| Engine.UnloadAlone | crates/hmcl-rust-host-native/src/embedded.rs:343-356 | an unload of a disabled payload shuts it down and takes it off the registry |
| Engine.RegistryIsOrdered | crates/hmcl-rust-host-native/src/embedded.rs:192-197 | in every run the load order is strictly increasing and lists exactly the map, and a close in progress still has before it every payload that is up |
| Engine.CloseTakesAllReversed | crates/hmcl-rust-host-native/src/embedded.rs:142-158 | close takes the whole registry in reverse load order |
| Engine.CloseSettlesAll | crates/hmcl-rust-host-native/src/embedded.rs:159-171 | when the close that set the flag returns, every payload ever loaded has had exactly one shutdown callback if it was initialized and none otherwise |
| Engine.ClosedForever | crates/hmcl-rust-host-native/src/embedded.rs:173-183 | and so it stays, whatever threads that still hold a payload do |
| Engine.EmbeddedEngine.LoadPayload | crates/hmcl-rust-host-native/src/embedded.rs:78-96 | a payload is registered exactly when it loads, the engine is open and an identifier is left |
| Engine.EmbeddedEngine.Operate | crates/hmcl-rust-host-native/src/embedded.rs:100-121 | enable, disable and invoke act on the named payload alone and log the callback they run |
| Engine.EmbeddedEngine.UnloadPayload | crates/hmcl-rust-host-native/src/embedded.rs:127-139 | a payload is removed exactly when its shutdown succeeds; after a failure the second unload removes it without another callback |
| Engine.EmbeddedEngine.Close | crates/hmcl-rust-host-native/src/embedded.rs:142-171 | the callbacks run are those of the initialized payloads in reverse load order, all of them, and the first failure is reported |
| Engine.ForcedCallsAre | crates/hmcl-rust-host-native/src/embedded.rs:358-387 | the callbacks of a close are one shutdown of each payload that is up and none of others, in descending order |
| Engine.FirstFailureIsFirst | crates/hmcl-rust-host-native/src/embedded.rs:358-387 | the failure reported is the first one, and there is none exactly when every callback succeeds |
| Allocations.HostCallbacks.Allocate | crates/hmcl-rust-host-native/src/embedded.rs:435-457 | an allocation issues one new token; an empty one issues none |
| Allocations.HostCallbacks.Release | crates/hmcl-rust-host-native/src/embedded.rs:459-475 | a token is consumed even when its descriptor is refused; an unknown one changes nothing |
| Allocations.HostCallbacks.TakeOutput | crates/hmcl-rust-host-native/src/embedded.rs:477-494 | the bytes are delivered exactly for a live token with its own capacity, and the token is consumed |
| Allocations.PluginContext.Receive | crates/hmcl-plugin-sdk/src/lib.rs:223-234 | a buffer the host returned, well formed or not, is released exactly once; a failed drop-time release is counted |
| Allocations.PluginContext.Fill | crates/hmcl-plugin-sdk/src/lib.rs:322-336 | a buffer that does not satisfy the request is released exactly once, one that does is handed over with the bytes, if any, in it |
| Allocations.PluginContext.Invoke | crates/hmcl-plugin-sdk/src/lib.rs:198-234 | a host operation leaves the table as it was and returns what the launcher's bytes decode to |
| Allocations.PluginContext.AllocateWire | crates/hmcl-plugin-sdk/src/lib.rs:306-337 | the bytes end up under one new token of exactly their length; no bytes take no token |
| Allocations.HostBuffer.Release | crates/hmcl-plugin-sdk/src/lib.rs:418-434 | the explicit release takes the buffer, so it is the only one |
| Allocations.HostBuffer.Drop | crates/hmcl-plugin-sdk/src/lib.rs:436-452 | the drop releases a buffer that is still there and nothing else |
| Allocations.Invocation.InvokeInner | crates/hmcl-plugin-sdk/src/lib.rs:770-830 | a failure of any kind leaves the table as it was; a success leaves exactly one token, holding the encoded value |
| Allocations.Invocation.Invoke | crates/hmcl-rust-host-native/src/embedded.rs:311-341 | end to end: whatever happens the table ends as it began; a success delivers bytes that decode to the value the plugin returned |
| Allocations.LedgerBalances | crates/hmcl-rust-host-native/src/embedded.rs:435-494 | in any ledger that replays, issues and consumptions of a token differ by whether it is live |
| Allocations.EachTokenConsumedOnce | crates/hmcl-rust-host-native/src/embedded.rs:435-494 | over one invocation every token is consumed exactly as often as it was issued |
| HostErrors.CodesAreValid | crates/hmcl-rust-host-process/src/server.rs:311-327 | the code of every host failure passes the error-code check |
| HostErrors.FailureCodes | crates/hmcl-rust-host-process/src/server.rs:311-327 | which failure has which code |
| HostErrors.FailureTexts | crates/hmcl-rust-host-native/src/error.rs:6-60 | which failure has which text |
| HostErrors.CodesTellFailures | crates/hmcl-rust-host-process/src/server.rs:311-327 | two kinds of failure never share a code |
| HostErrors.BridgeCodesAreValid | crates/hmcl-plugin-sdk/src/error.rs:35-46 | and so does the code of every bridge error |
| HostErrors.ErrorBody | crates/hmcl-rust-host-process/src/server.rs:311-340 | whatever the failure and however long its text, the body reporting it is valid, its code the failure's and its message a prefix of that text |
| HostErrors.DisplayStartsWithLetter | crates/hmcl-rust-host-native/src/error.rs:6-60 | the text of every failure starts with a letter, so no truncation makes it blank |
| Replies.FramesWhenPayloadFits | crates/hmcl-runtime-protocol/src/lib.rs:463-472 | a valid message frames exactly when its payload fits what the envelope leaves of each limit |
| Replies.ResultFrames | crates/hmcl-runtime-protocol/src/lib.rs:463-472 | a result frames exactly up to 16,777,089 bytes |
| Replies.CallbackResultFrames | crates/hmcl-runtime-protocol/src/lib.rs:463-472 | the reply a callback waits for is a valid message for every even identifier and frames exactly up to 16,777,080 bytes of output |
| Replies.OkFrames | crates/hmcl-rust-host-process/src/server.rs:48-59 | an Ok response always frames |
| Replies.ErrorFrames | crates/hmcl-rust-host-process/src/server.rs:48-59 | an Error response always frames |
| ServerTrace.ResponsesFollowRequests | crates/hmcl-rust-host-process/src/server.rs:28-64 | every request gets at most one response, carrying its own identifier, in request order |
| ServerTrace.OnlyCallbacksInBetween | crates/hmcl-rust-host-process/src/server.rs:28-64 | between a request and its response only callbacks appear, with even identifiers |
| ServerTrace.RepliesFollowTheirCalls | crates/hmcl-rust-host-process/src/server.rs:209-235 | a reply reaches only the call with its identifier |
| ServerTrace.WritesByParity | crates/hmcl-rust-host-process/src/server.rs:48-59 | of the messages written, those with odd identifiers are exactly the responses and those with even ones the callback requests, in order |
| ServerTrace.IdsIncreaseExactlyUntilTheWrap | crates/hmcl-rust-host-process/src/server.rs:210-213 | usable callback identifiers strictly increase exactly as long as at most 2^63 calls are made |
| ServerTrace.IdsRepeatAfterTheWrap | crates/hmcl-rust-host-process/src/server.rs:210-213 | the counter wraps: the first call and the one after 2^63 others carry the same identifier |
| Server.CommandsInOrder | crates/hmcl-rust-host-process/src/server.rs:66-180 | commands are accepted only in the order hello, load, enable or invoke or disable, shutdown, and a refused one changes no state |
| Server.Server.Send | crates/hmcl-rust-host-process/src/server.rs:209-222 | exactly one identifier is drawn, the next of the counter; with no stream fault the request is written whole under it exactly when such a message can be framed |
| Server.Server.Await | crates/hmcl-rust-host-process/src/server.rs:223-235 | with no stream fault the delivery is what the next frame holds: its body if the frame is whole and carries the awaited identifier, a failure otherwise |
| Server.Server.Call | crates/hmcl-rust-host-process/src/server.rs:209-235 | the delivery is decided by the identifier, the request and the bytes to come; a delivered reply directly follows its own request |
| Server.Server.BridgeInvoke | crates/hmcl-rust-host-process/src/server.rs:243-261 | output is returned exactly for a callback result with the right identifier, and a callback error is told apart from any other reply |
| Server.Server.HandleCall | crates/hmcl-rust-host-process/src/server.rs:299-308 | a retain or release is confirmed exactly by an empty callback result under its identifier |
| Server.Server.Handle | crates/hmcl-rust-host-process/src/server.rs:66-180 | a command moves the state and gives the verdict of the lifecycle: the engine's own output or error while a payload is loaded, and each refusal under its own error; the plugin's calls are made exactly then |
| Server.Server.RunCalls | crates/hmcl-rust-host-process/src/server.rs:205-308 | each call of the plugin draws one identifier and, barring a fault, sends exactly the request it asks for |
| Server.AskedBodies | crates/hmcl-rust-host-process/src/server.rs:243-308 | which request each operation of the plugin sends |
| Server.SentAre | crates/hmcl-rust-host-process/src/server.rs:205-222 | the requests sent are one for each call, in order, under the identifiers drawn for them |
| Server.Server.Respond | crates/hmcl-rust-host-process/src/server.rs:48-59 | a response that is written puts exactly its frame on the output; it fails to encode only as an oversized result, and then nothing is written |
| Server.Server.Receive | crates/hmcl-rust-host-process/src/server.rs:30-46 | the first frame of the rest: an odd message is a command to answer, an even one ends the loop, the end of the stream is the end of the input, and only a stream fault makes the reading lose track of the input |
| Server.Server.Answer | crates/hmcl-rust-host-process/src/server.rs:46-62 | a command is answered at most once, under its own identifier, with the verdict of the lifecycle, and draws one callback identifier for each call of its plugin |
| Server.Server.Serve | crates/hmcl-rust-host-process/src/server.rs:28-64 | over any input and any answers of the engine: the responses tell one by one the verdicts of the lifecycle on the commands taken up, the final state and the identifiers drawn are those of the commands, each exit says what is left unanswered, and barring stream faults an end of input or bad input means every whole message was taken off the input |
| Server.Server.Turn | crates/hmcl-rust-host-process/src/server.rs:43-62 | one command from its receipt to its response: the loop goes on with the script and the state one command further, or ends for the reason the exit gives |
| Server.RunStdio | crates/hmcl-rust-host-process/src/main.rs:19-31 | from the first byte to the last, for any input and any fault-free schedules of the streams: the output parses to exactly the logged messages; its odd ones are the responses, an answered invoke carrying the engine's own output and an error of a loaded payload the engine's own; its even ones are the requests the plugin asked for; every whole message is read unless the loop ends before; identifiers increase up to 2^63 calls |
| Server.ScriptedReports | crates/hmcl-rust-host-process/src/server.rs:66-180 | what a run of verdicts means for the parent, told without the lifecycle: own output, own error, or a plain answer |
| Server.AcceptedInOrder | crates/hmcl-rust-host-process/src/server.rs:66-180 | over whole runs: of two accepted commands the later is no hello, the earlier no shutdown, and before a load comes only the hello |
| Server.OutputReadsBack | crates/hmcl-rust-host-process/src/server.rs:48-59 | as long as no write faulted the output parses to exactly the logged messages, with a clean end |
| HandleLedger.HandleContext.FromOwned | crates/hmcl-plugin-sdk/src/handle.rs:56-64 | adopting takes one reference exactly when the lease, the release callback and the type allow it; a failure changes nothing |
| HandleLedger.HandleContext.FromBorrowed | crates/hmcl-plugin-sdk/src/handle.rs:31-48 | a reference is taken exactly when both leases are granted, both callbacks exist, the type is right and the retain succeeded; each failure has its own error and changes nothing |
| HandleLedger.HandleContext.DropHandle | crates/hmcl-plugin-sdk/src/handle.rs:83-92 | a drop gives back one reference, or finds no lease, and counts a failed release |
| HandleLedger.ReferencesBalance | crates/hmcl-plugin-sdk/src/lib.rs:254-304 | over any run, per object: adopted plus retained equals live plus released plus refused; cleanup failures are exactly the failed releases of handles and of host buffers |
| HandleLedger.ColumnsCountCalls | crates/hmcl-plugin-sdk/src/lib.rs:254-304 | over any run, per object: each column counts exactly the calls that ended its way, retained those retains that returned Ok under both leases with the right type |
| HandleLedger.HandleContext.DropHostBuffer | crates/hmcl-plugin-sdk/src/lib.rs:436-452 | a failed release of a dropped host buffer adds one to the same counter and touches no reference |
| HandleLedger.FailuresLeaveNothing | crates/hmcl-plugin-sdk/src/handle.rs:31-64 | a failed acquire leaves no reference, and only a failed release is counted |
| HandleLedger.QuietHandles | crates/hmcl-plugin-sdk/src/lib.rs:289-300 | after deactivation no handle callback is made any more |
| Decimals.DigitsParse | host-plugin/src/main/java/dev/hmclce/runtime/rust/RustNativeEngine.java:391-405 | printing a number and parsing it gives it back |
| JavaEngines.RustNativeEngine.Initialize | host-plugin/src/main/java/dev/hmclce/runtime/rust/RustNativeEngine.java:182-194 | the handle is set once, to a nonzero value |
| JavaEngines.RustNativeEngine.LoadPayload | host-plugin/src/main/java/dev/hmclce/runtime/rust/RustNativeEngine.java:214-250 | for any native result the tables are entered exactly on success with a new identifier, and unchanged otherwise; the session number given to native code is new and spent whatever comes back |
| JavaEngines.RustNativeEngine.RequirePayload | host-plugin/src/main/java/dev/hmclce/runtime/rust/RustNativeEngine.java:391-405 | a live identifier parses to exactly the native number it was printed from, so neither error branch after the lookup is taken |
| JavaEngines.RustNativeEngine.UnloadPayload | host-plugin/src/main/java/dev/hmclce/runtime/rust/RustNativeEngine.java:299-307 | a payload leaves all three tables exactly when the native unload returns |
| JavaEngines.RustNativeEngine.Close | host-plugin/src/main/java/dev/hmclce/runtime/rust/RustNativeEngine.java:311-324 | all tables are emptied exactly when destroying the engine does not throw |
| JavaEngines.RustNativeEngine.RequireSession | host-plugin/src/main/java/dev/hmclce/runtime/rust/RustNativeEngine.java:369-375 | a session resolves exactly while it is in the table, to the context of its payload |
| JavaEngines.EnterKeepsLinks | host-plugin/src/main/java/dev/hmclce/runtime/rust/RustNativeEngine.java:243-249 | entering a payload keeps equal keys, one-to-one sessions and agreeing contexts |
| JavaEngines.LeaveKeepsLinks | host-plugin/src/main/java/dev/hmclce/runtime/rust/RustNativeEngine.java:299-307 | so does removing one |
| JavaEngines.NextIsFresh | host-plugin/src/main/java/dev/hmclce/runtime/rust/RustRuntimeEngine.java:292-299 | public identifiers are never reused |
| JavaEngines.InnerRouted | host-plugin/src/main/java/dev/hmclce/runtime/rust/RustRuntimeEngine.java:157-170 | after an embedded load every live public identifier still leads to the context it was loaded with, no two to the same native payload |
| JavaEngines.RemovalRouted | host-plugin/src/main/java/dev/hmclce/runtime/rust/RustRuntimeEngine.java:254-265 | and after an unload |
| JavaEngines.RustRuntimeEngine.AllocatePayloadId | host-plugin/src/main/java/dev/hmclce/runtime/rust/RustRuntimeEngine.java:292-299 | identifiers count up from one, none is issued twice, and after the greatest signed number there are no more |
| JavaEngines.RustRuntimeEngine.LoadPayload | host-plugin/src/main/java/dev/hmclce/runtime/rust/RustRuntimeEngine.java:157-170 | for either backend a new identifier is entered exactly when it loads; a failed load of an open engine uses one up and enters nothing |
| JavaEngines.RustRuntimeEngine.Resolve | host-plugin/src/main/java/dev/hmclce/runtime/rust/RustRuntimeEngine.java:306-313 | a live embedded identifier leads through both tables, by payload and by session, to the context it was loaded with |
| JavaEngines.RustRuntimeEngine.UnloadPayload | host-plugin/src/main/java/dev/hmclce/runtime/rust/RustRuntimeEngine.java:254-265 | a process is forgotten even when its shutdown throws, an embedded payload only when it unloads; the load order of the others stays |
| JavaEngines.RustRuntimeEngine.CloseProcesses | host-plugin/src/main/java/dev/hmclce/runtime/rust/RustRuntimeEngine.java:277-283 | processes close in reverse load order up to the first that throws |
| JavaEngines.LaterClosesFirst | host-plugin/src/main/java/dev/hmclce/runtime/rust/RustRuntimeEngine.java:277-283 | of two processes the one loaded later is closed first |
| JavaEngines.ReachedStopsAtThrow | host-plugin/src/main/java/dev/hmclce/runtime/rust/RustRuntimeEngine.java:277-283 | all of them are closed if none throws, and otherwise those up to the first that does |
| JavaEngines.RustRuntimeEngine.Close | host-plugin/src/main/java/dev/hmclce/runtime/rust/RustRuntimeEngine.java:272-286 | the tables are emptied and the embedded engine closed exactly when no process close throws; the native tables are emptied only if destroying the engine does not throw either, and else stay as they were |

## Left out

- The session model does not have `Arc` aborting on a strong count beyond `isize::MAX`, because no run can hold that many clones.
- Server.Server.Call: does not model callbacks made by several plugin threads at once, whose requests could be written in another order than their identifiers were drawn; replies are still matched by identifier.
- A load makes no callbacks, because the host callbacks are not armed while the library is queried; arming is not part of this model.
- Server.Server.Serve: does not model flushing or poisoned stream locks; a fault of the stream stands for both.
- Allocations.PluginContext.Invoke: models one thread of the plugin; host operations of other plugin threads would interleave their own tokens with these.
- Engine.EmbeddedEngine.Close: does not carry the failing status code, only which payload failed first.
- HandleLedger.HandleContext.DropHandle: takes the lease as a given answer; when leases are granted is the subject of HostLease.
- JavaEngines.RustRuntimeEngine.LoadPayload: native code is taken to answer without calling back into the tables it is being entered in.
- JNI exports, the Java bridge adapter, dynamic library loading, raw pointers, alignment and C layout: a foreign call is an arbitrary status with an arbitrary result.
- The ABI header and table negotiation of `hmcl-runtime-abi`, and null or misaligned pointer arguments: short straight-line checks before the modelled code.
- Path resolution of entry points, native libraries and the process host: file system canonicalisation.
- Mutex poisoning, process start and kill, and Java deadlines; a panic is an early exit that still runs the drop code.
- Liveness that depends on plugin or host callbacks returning, and a deactivate called by a thread that holds a lease on the same host, which waits for itself.
- A plugin that re-enters the engine for its own payload, which waits for the lock it holds.
- The contents of I/O and loader error texts: any UTF-8 text stands for them.
- Host logging, the plugin provider and launch hooks, packaging and manifests: thin delegation.
- Targets whose `usize` is narrower than 64 bits, and host tables that lack a callback other than the two of HandleLedger.
- Unicode beyond UTF-8 validity, character boundaries and the white-space code points.
