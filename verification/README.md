# A Dafny model of fjarr's agent

fjarr lets operators drive a robot's desktop from afar. This project models the parts of its agent
that keep state under hard invariants, and proves them over every run:

- **Capture** (`CaptureFrames`, `FramesProtocol`, `FramesFeed`, `OfferPlan`): mutter's buffers lent to
  GStreamer without a copy, given back when the last reference dies; what the pipeline gets of them; and
  the plan of what memory to offer.
- **Blobs** (`BlobCodec`, `BlobPump`, `BlobStore`, `BlobTransfer`): the frame codec, the sender that
  resumes after a refusal, the bounded store, and the three together.
- **Control and input** (`ControlDomains`, `EisInput`, `HandOver`): who may send input, what is held
  down at the compositor, and the hand-over between operators.
- **Sound** (`DesktopSound`): the agent and the desktop helper over two queues.
- **Clipboard** (`ClipboardIncr`, `ClipboardServe`, `ClipboardFetch`): a transfer in chunks, many pastes
  served at once, and one conversion at a time.
- **Tunnel** (`NetAddressing`, `NetLink`): addresses, packet rules and the one link.

The shape is the same throughout. The state is a datatype and each operation a function on it. A
class holds the same state in fields; its methods work step by step, as the C++ does, and are proved
equal to those functions. A run is a sequence of labels, `After` gives the state after it, `StepKeepsInv`
proves that no step breaks the invariant, and the theorems are about the state after any run. Whatever
the code does not decide (the clock, what a socket or PipeWire answers, which thread comes first) is
part of a label, so a theorem holds for all of it.

Beside the invariants, which say what never happens, each part has an account of what must happen, told
from the labels: the frames pushed (`FramesFeed.FeedAfter`), the bytes of one blob
(`BlobStore.StoredAfter`), whose one domain is (`ControlDomains.Seated`), what listeners hear
(`DesktopSound.SettledMeansHeard`), what became of every read (`ClipboardFetch.NoReadIsLost`), and the fate
of every packet (`NetLink.Obeys`). The theorems prove the state equal to it after any run.

Some promises turn out to hold on a condition. Each has a lemma with the input that fails and a lemma
with the exact condition:

- A chunk that encodes parses back, if and only if `offset + |payload|` stays below 2^64: the bound
  is checked on a sum that wraps (`ParseOfEncoded`, `WrappedFrame`).
- A blob received to its last frame is in the store whole, if and only if it was not let expire between
  two of its frames (`ReceivedWhole`, `LostByAgeing`, `ExpiresMidway`).
- Releasing everything leaves nothing down, if and only if a device was there for what was held
  (`ReleaseAllReleases`, `ReleaseAllWithoutDevice`).
- A stroke types its key with its modifiers held, if and only if the key is not one of them
  (`StrokeIsTypedIff`, `StrokeHoldingItsKey`), and a text is typed as asked if and only if that is so of
  all its characters (`TextIsTypedWhole`).
- A paste gets the bytes owned at its request only if no deletion waits at its window and property that
  a send will answer, which would overwrite it (`WaitingDeletionSpoils`, `WholeIsOverwritten`). With none
  waiting it gets them, within its limit, if and only if they fit one property, no earlier send to the
  same window and property stands, or that one has the same bytes left: a deletion is answered by the
  first send that matches (`GetsWhatWasOwned`, `SecondPasteGetsTheTail`).
- A derived tunnel address is in its block if and only if the prefix is 23 or less or the hash wraps
  back into it, and the two ends have different addresses for all hashes but one in the smaller blocks,
  though prefixes up to 30 are accepted (`DerivedIsFit`, `EndsDiffer`, `DerivedMisses`, `EndsCollide`).

Each file begins with what it models. `dafny verify dfyconfig.toml` checks the whole project.

## Model

| member | source | states |
|---|---|---|
| `CaptureFrames.Frames.constructor` | agent/modules/desktop-mutter/capture_memory.cpp:289-293 | A new object has no buffers, no frame, no format and nothing posted. |
| `CaptureFrames.Frames.SetFormat` | agent/modules/desktop-mutter/capture_memory.cpp:315-342 | A new fixed format drops the newest frame of either kind and hands its token over for release; the same format, or one that is not fixed, changes nothing. |
| `CaptureFrames.Frames.AddBuffer` | agent/modules/desktop-mutter/capture_memory.cpp:344-407 | A buffer comes with the memory wrapped for it, or none, neither out nor ever delivered. |
| `CaptureFrames.Frames.RemoveBuffer` | agent/modules/desktop-mutter/capture_memory.cpp:416-428 | Its slot goes, and the newest frame with it when that is its own, its token handed over for release. |
| `CaptureFrames.Frames.PushFrame` | agent/modules/desktop-mutter/capture_memory.cpp:441-450 | A frame goes out exactly when a pipeline is attached and not suspended. |
| `CaptureFrames.Frames.OnBuffer` | agent/modules/desktop-mutter/capture_memory.cpp:488-538 | The four outcomes of a delivery with the whole new state: cursor only, held under a new number with its token, copied, or dropped. |
| `CaptureFrames.Frames.RepeatNewest` | agent/modules/desktop-mutter/capture_memory.cpp:452-464 | Re-sends the newest frame, marked as a repeat, over the same memory and under the same token, and counts it if taken. |
| `CaptureFrames.Frames.Keepalive` | agent/modules/desktop-mutter/capture_memory.cpp:540-545 | Repeats when due, and does nothing otherwise. |
| `CaptureFrames.Frames.Attach` | agent/modules/desktop-mutter/capture_memory.cpp:547-555 | A new pipeline gets the newest frame at once, unless suspended. |
| `CaptureFrames.Frames.Suspend` | agent/modules/desktop-mutter/capture_memory.cpp:557-560 | Nothing goes out from now on. |
| `CaptureFrames.Frames.Resume` | agent/modules/desktop-mutter/capture_memory.cpp:562-569 | Ends a suspension, with a repeat for the pipeline attached meanwhile. |
| `CaptureFrames.Frames.GiveBack` | agent/modules/desktop-mutter/capture_memory.cpp:580-586 | A release frees its slot exactly when the slot is out under that very delivery. |
| `CaptureFrames.Frames.DrainReleases` | agent/modules/desktop-mutter/capture_memory.cpp:571-589 | All posted releases in order: the state after them and exactly the deliveries given back. |
| `FramesProtocol.StepKeepsInv` | agent/modules/desktop-mutter/capture_memory.cpp:315-589 | Every step of mutter, GStreamer and the reader, in any order, keeps the whole ownership invariant. |
| `FramesProtocol.RunsKeepInv` | agent/modules/desktop-mutter/capture_memory.cpp:315-589 | The invariant holds after every interleaving. |
| `FramesProtocol.NeverRecordedOver` | agent/modules/desktop-mutter/capture_memory.cpp:498-527 | After any run no buffer mutter owns has the memory of a live frame, of a copy of one, or of the frame kept for repeats. |
| `FramesProtocol.GivenBackAtMostOnce` | agent/modules/desktop-mutter/capture_memory.cpp:571-589 | After any run no delivery was given back twice, and none that was is live or posted again. |
| `FramesProtocol.RepeatsAreTheNewestFrame` | agent/modules/desktop-mutter/capture_memory.cpp:452-464 | After any run a repeat is the newest frame made, under the format now in force, over a slot that is present, out and not mutter's. |
| `FramesProtocol.GivenBackIffStanding` | agent/modules/desktop-mutter/capture_memory.cpp:580-586 | A posted release is acted on if and only if the slot it was delivered from still stands under that delivery. |
| `FramesProtocol.StandsIffNotRemoved` | agent/modules/desktop-mutter/capture_memory.cpp:416-428 | After any run a delivery's slot stands if and only if, since the step that gave it its number, its buffer was not removed: one added again at the same address does not count. |
| `FramesProtocol.GivenBackIffNotRemoved` | agent/modules/desktop-mutter/capture_memory.cpp:580-586 | So after any run a posted release gives its buffer back if and only if that buffer was not removed since the delivery. |
| `FramesProtocol.DrainedCore` | agent/modules/desktop-mutter/capture_memory.cpp:571-589 | Drained one release and one buffer at a time, the state is the one the method leaves. |
| `FramesProtocol.DrainedReturned` | agent/modules/desktop-mutter/capture_memory.cpp:571-589 | And the buffers given back are those the method gives back, in order. |
| `FramesProtocol.DrainAllIsStanding` | agent/modules/desktop-mutter/capture_memory.cpp:580-586 | A drain gives back exactly the posted deliveries whose slots stand, in order. |
| `FramesProtocol.OutIsLive` | agent/modules/desktop-mutter/capture_memory.cpp:601-604 | With nothing left to drain the slots marked out are exactly those with a live token. |
| `FramesProtocol.MutterHasTheRest` | agent/modules/desktop-mutter/capture_memory.cpp:588-588 | And mutter owns every other slot. |
| `FramesProtocol.EnoughForMutter` | agent/modules/desktop-mutter/capture_memory.cpp:601-604 | With k deliveries kept downstream mutter owns at least N-(k+1) of N buffers. |
| `FramesProtocol.DrainReturns` | agent/modules/desktop-mutter/capture_memory.cpp:571-589 | A drain adds the standing posted deliveries to those returned, and nothing else. |
| `FramesProtocol.DrainSettles` | agent/modules/desktop-mutter/capture_memory.cpp:571-589 | A drain run to its end keeps the invariant, leaves nothing posted and touches no reference. |
| `FramesProtocol.DrainAfterAnyRun` | agent/modules/desktop-mutter/capture_memory.cpp:571-604 | The next drain after any run: everything due comes back, out is live, and mutter has its N-(k+1). |
| `FramesFeed.PipelineGetsWhatIsMeant` | agent/modules/desktop-mutter/capture_memory.cpp:315-569 | After any run, however buffers were lent and given back, the frames pushed are exactly those of an account kept from the labels alone: every new frame, and the newest one again at a due keepalive, a new pipeline or the end of a suspension, in order, while one is attached and not suspended; and the three counts with them. |
| `FramesFeed.NewFramesArePushed` | agent/modules/desktop-mutter/capture_memory.cpp:488-538 | After any run a delivery over wrapped memory, or one that can be copied, becomes the newest frame and is pushed if and only if a pipeline is attached and not suspended; any other pushes nothing and leaves the newest frame. |
| `FramesFeed.StepAgrees` | agent/modules/desktop-mutter/capture_memory.cpp:441-569 | Every step of capture, pipeline and drain keeps the state and the account in agreement. |
| `OfferPlan.ParseProducerFormats` | agent/modules/desktop-mutter/capture_memory.cpp:89-120 | Any list of parameters becomes one group per format, formats and modifiers in first-appearance order and once each. |
| `OfferPlan.ParsedMakes` | agent/modules/desktop-mutter/capture_memory.cpp:89-120 | The groups hold a pair if and only if some valid parameter offers its format and its modifier. |
| `OfferPlan.PlanDmabuf` | agent/modules/desktop-mutter/capture_memory.cpp:132-142 | The import list filtered to what mutter makes, grouped in first-appearance order. |
| `OfferPlan.PlanShm` | agent/modules/desktop-mutter/capture_memory.cpp:149-152 | A permutation of the four formats, beginning with the DMA-BUF ones in order. |
| `OfferPlan.PlanOffer` | agent/modules/desktop-mutter/capture_memory.cpp:122-154 | The whole offer: its groups, its shared-memory list, its reason, and that the reason is empty if and only if DMA-BUF is offered. |
| `OfferPlan.PlannedFormats` | agent/modules/desktop-mutter/capture_memory.cpp:59-67 | Only the four known formats are offered, each in one group. |
| `OfferPlan.FormatsByNumber` | agent/modules/desktop-mutter/capture_memory.cpp:59-67 | The four DRM formats by their numbers, each way; any other number is unknown. |
| `OfferPlan.OfferedIffImportedAndMade` | agent/modules/desktop-mutter/capture_memory.cpp:122-142 | For every request and every list of parameters, a pair is offered if and only if nothing bars DMA-BUF (a virtual monitor, a forced or fallen-back shared memory, no imports, no modifiers) and the pair is imported and mutter can make it. |
| `OfferPlan.DistinctInOrder` | agent/modules/desktop-mutter/capture_memory.cpp:139-141 | Keeping each element once keeps the order of first appearances. |
| `OfferPlan.PlannedShape` | agent/modules/desktop-mutter/capture_memory.cpp:132-142 | No group is empty or has a modifier twice, and groups and modifiers are in the import list's order. |
| `BlobCodec.UuidBytes` | agent/src/core/blob.cpp:55-71 | Exactly the 8-4-4-4-12 hex texts are read, to the bytes of their digit pairs, never out of bounds. |
| `BlobCodec.UuidText` | agent/src/core/blob.cpp:73-83 | Sixteen bytes to lower-case text of that form. |
| `BlobCodec.UuidRoundTrip` | agent/src/core/blob.cpp:55-83 | Bytes to text and back: the same bytes (section 4 of RFC 9562). |
| `BlobCodec.UuidTextRoundTrip` | agent/src/core/blob.cpp:55-83 | Text to bytes and back: the same text in lower case. |
| `BlobCodec.PutNumber` | agent/src/core/blob.cpp:18-29 | Writes a number big-endian in place and leaves every other byte alone. |
| `BlobCodec.GetNumber` | agent/src/core/blob.cpp:30-39 | Reads the number those bytes mean. |
| `BlobCodec.EncodeChunk` | agent/src/core/blob.cpp:85-99 | The frame, byte for byte, or the first of the three errors that applies, with the overrun checked on a wrapping sum. |
| `BlobCodec.ParseChunk` | agent/src/core/blob.cpp:101-116 | The chunk, or nothing for any of the five refusals. |
| `BlobCodec.ParseOfEncoded` | agent/src/core/blob.cpp:85-116 | What was encoded parses to the same chunk with its id in lower case, if and only if its end does not wrap. |
| `BlobCodec.WrappedFrame` | agent/src/core/blob.cpp:90-90 | The input that fails: a byte at the last offset of an empty blob encodes and does not parse. |
| `BlobCodec.EncodedOfParse` | agent/src/core/blob.cpp:101-116 | A frame that parses is the encoding of what it parses to. |
| `BlobCodec.AcceptsExactlyTheEncoded` | agent/src/core/blob.cpp:85-116 | The frames that parse are exactly those that encoding makes of chunks whose end does not wrap. |
| `BlobStore.BlobAssembler.constructor` | agent/src/core/blob.cpp:120-123 | An empty store with its three bounds. |
| `BlobStore.BlobAssembler.Erase` | agent/src/core/blob.cpp:125-128 | One entry goes, and the byte count stays the sum of the sizes stored. |
| `BlobStore.BlobAssembler.FindOldest` | agent/src/core/blob.cpp:160-162 | Of the entries other than the one to keep, the oldest, and of equally old ones the first in id order. |
| `BlobStore.BlobAssembler.Evict` | agent/src/core/blob.cpp:157-166 | Oldest others go one by one while the store is over its limit and holds more than one, and no longer. |
| `BlobStore.BlobAssembler.OnChunk` | agent/src/core/blob.cpp:130-168 | A chunk that begins or continues its blob without a gap is taken, any other is dropped with what its blob had; the byte count stays the sum, drops are counted, and a completed blob is reported. |
| `BlobStore.BlobAssembler.Take` | agent/src/core/blob.cpp:175-182 | Exactly the bytes of a complete blob, once; nothing otherwise. |
| `BlobStore.BlobAssembler.Discard` | agent/src/core/blob.cpp:184-187 | One entry goes, if it is there. |
| `BlobStore.BlobAssembler.Expire` | agent/src/core/blob.cpp:189-200 | Exactly the entries not extended within the time to live go, and each is counted. |
| `BlobStore.EvictsOldestFirst` | agent/src/core/blob.cpp:157-166 | What is evicted is never the blob being extended, and is older than everything else that stays, ties decided by id. |
| `BlobStore.OnlyPrefixesStored` | agent/src/core/blob.cpp:130-182 | Over any loss, duplication and reordering of slices of one blob per id, what is stored is a prefix, and complete means whole. |
| `BlobStore.StoreIsBounded` | agent/src/core/blob.cpp:125-200 | After any run of valid chunks the store is within its limit or holds one blob, so never exceeds the larger of its two bounds. |
| `BlobStore.EveryBlobIsAsItCame` | agent/src/core/blob.cpp:130-200 | After any run the store has of every blob exactly what its own chunks brought, from its beginning and without a gap, until it was taken, discarded, evicted, spoiled by a chunk out of place or left alone past the time to live. |
| `BlobPump.EncodesUuids` | agent/src/core/blob_pump.cpp:24-30 | A transfer's next frame encodes if and only if its id is a uuid. |
| `BlobPump.Pump.constructor` | agent/src/core/blob_pump.cpp:10-10 | An idle pump with chunks of any size up to the frame's bound, larger ones cut to it. |
| `BlobPump.Pump.Enqueue` | agent/src/core/blob_pump.cpp:12-12 | One more transfer, last, from its beginning. |
| `BlobPump.Pump.SendFront` | agent/src/core/blob_pump.cpp:18-37 | The front transfer's frames go out in order until one is refused, one cannot be encoded or none is left, without losing the place. |
| `BlobPump.Pump.Act` | agent/src/core/blob_pump.cpp:40-52 | What a callback does in turn is a run of single enqueues and cancellations, which tell nothing but false. |
| `BlobPump.Pump.DoPump` | agent/src/core/blob_pump.cpp:14-43 | For any answers of the channel and any callbacks that enqueue and cancel, pumping is a run of single sends, finishes and what the callbacks do; it ends with the queue empty unless refused or thrown out of by a malformed id, and does nothing when closed or re-entered. |
| `BlobPump.Pump.Cancel` | agent/src/core/blob_pump.cpp:45-52 | The first transfer with the id goes and is told false, or there is none. |
| `BlobPump.Pump.FailAll` | agent/src/core/blob_pump.cpp:54-59 | Every queued transfer is told false and nothing is told true, whatever the callbacks enqueue or cancel meanwhile, and only what they enqueued is left. |
| `BlobTransfer.NextIsAccepted` | agent/src/core/blob.cpp:130-156 | After any run the store takes the next frame of the channel if and only if its blob was not lost by ageing: it begins a blob the store knows nothing of or continues the one in progress. |
| `BlobTransfer.NextIsStored` | agent/src/core/blob.cpp:130-168 | After it the store has that blob as far as it was sent, complete exactly when that is all of it, whatever was evicted; or nothing of it if it was lost. |
| `BlobTransfer.StepKeepsInv` | agent/src/core/blob_pump.cpp:12-59 | Enqueues, sends, finishes, cancellations, deliveries, takes and ageing at any time keep sender, channel and store in step. |
| `BlobTransfer.RunsKeepInv` | agent/src/core/blob_pump.cpp:12-59 | They are in step after every run. |
| `BlobTransfer.DoneExactlyOnce` | agent/src/core/blob_pump.cpp:38-59 | After any run each transfer ever enqueued is queued or was told, and told once. |
| `BlobTransfer.DoneMeansSent` | agent/src/core/blob_pump.cpp:27-40 | A transfer told true has a last frame on the wire by which all its bytes went out. |
| `BlobTransfer.ReceivedWhole` | agent/src/core/blob_pump.cpp:14-43 | End to end: once the frame with a blob's last bytes was received, the very step that received it reported the blob, and left the whole of it in the store as complete, empty blobs included, if and only if it had not expired between two frames; otherwise it reported nothing and left nothing. |
| `BlobTransfer.DoneMeansReceived` | agent/src/core/blob_pump.cpp:14-43 | Told true by the sender and every frame received, a blob was reported and whole at the receiver by some step, or had expired on the way. |
| `BlobTransfer.LostByAgeing` | agent/src/core/blob.cpp:189-200 | After any run a blob is lost if and only if the store was aged while it was the one in progress and overdue. |
| `BlobTransfer.ExpiresMidway` | agent/src/core/blob.cpp:189-200 | The run that fails: a store aged past the time to live between two frames drops the first, and the second is received in vain. |
| `ControlDomains.Control.constructor` | agent/src/core/control_domains.hpp:67-69 | Nobody holds anything. |
| `ControlDomains.Control.DoClaim` | agent/src/core/control_domains.cpp:5-15 | The domain is the operator's, its idle predecessor forgotten, and the change names the one to release. |
| `ControlDomains.Control.Input` | agent/src/core/control_domains.cpp:17-24 | Claims a free domain, refreshes one's own, and is refused in another's without a trace. |
| `ControlDomains.Control.TakeControl` | agent/src/core/control_domains.cpp:26-33 | Holds the domain from now on, whoever held it; no change when it is one's own. |
| `ControlDomains.Control.ReleaseControl` | agent/src/core/control_domains.cpp:36-41 | Frees one's own domain and names oneself for release. |
| `ControlDomains.Control.OperatorGone` | agent/src/core/control_domains.cpp:43-50 | Forgets an operator as holder and as idle predecessor, naming nobody. |
| `ControlDomains.Control.Heartbeat` | agent/src/core/control_domains.cpp:52-55 | Every claim of the operator, and no other, is refreshed. |
| `ControlDomains.Control.LookAt` | agent/src/core/control_domains.cpp:59-73 | What becomes of one domain: stale, idle or kept. |
| `ControlDomains.Control.Expire` | agent/src/core/control_domains.cpp:57-75 | The stale and the idle go, the idle are remembered, and the report has each exactly once, in the order of domain names. |
| `ControlDomains.ExpiredHoldersAreFresh` | agent/src/core/control_domains.cpp:57-75 | Every holder left after expiry is fresh in heartbeat and, for the desktop, in input; and nobody fresh was dropped. |
| `ControlDomains.ReportedOnce` | agent/src/core/control_domains.cpp:57-75 | A domain is in the report if and only if it was dropped, and no domain is in it twice. |
| `ControlDomains.ReleaseNamesTheSuspect` | agent/src/core/control_domains.cpp:5-33 | A claim or a takeover names an operator for release if and only if it is another one who holds, or idly held, the domain. |
| `ControlDomains.StepKeepsInv` | agent/src/core/control_domains.cpp:5-75 | Every operation keeps held and idle domains disjoint, and whoever has input down nameable. |
| `ControlDomains.RunsKeepInv` | agent/src/core/control_domains.cpp:5-75 | Both hold after every run. |
| `ControlDomains.HeldAndIdleAreDisjoint` | agent/src/core/control_domains.cpp:5-75 | After any run no domain is held and has an idle predecessor. |
| `ControlDomains.AllowedAloneInDomain` | agent/src/core/control_domains.cpp:17-24 | After any run, when input is allowed, every other operator with input down is the one the change names, so only the allowed one has input down after it. |
| `ControlDomains.EveryDomainIsWhoseItIs` | agent/src/core/control_domains.cpp:5-75 | After any run each domain's holder, times and idle predecessor are those its own inputs, takeovers, releases, heartbeats, departures and lapses make, told one domain at a time. |
| `ControlDomains.RefusedIffAnothers` | agent/src/core/control_domains.cpp:17-24 | Input is refused if and only if another operator holds the domain; allowed, the domain is the operator's with its last input now; no other domain changes. |
| `ControlDomains.RefusedAfterRun` | agent/src/core/control_domains.cpp:17-24 | And after any run, by what happened in it. |
| `EisInput.Ascending` | agent/modules/desktop-mutter/eis_input.cpp:177-178 | The elements of a set, smallest first, each once. |
| `EisInput.Device.constructor` | agent/modules/desktop-mutter/eis_input.cpp:22-39 | Nothing held and nothing sent: in step with the compositor. |
| `EisInput.Device.PressKey` | agent/modules/desktop-mutter/eis_input.cpp:162-174 | Sends and remembers a key event exactly when there is a keyboard and the event changes something. |
| `EisInput.Device.PressButton` | agent/modules/desktop-mutter/eis_input.cpp:145-153 | The same for a button. |
| `EisInput.Device.ReleaseAll` | agent/modules/desktop-mutter/eis_input.cpp:176-181 | Releases what is held, keys first, in ascending order, and forgets it whether sent or not. |
| `EisInput.Device.TypeText` | agent/modules/desktop-mutter/eis_input.cpp:183-206 | Error without keyboard or keymap, the untypable characters once each, or the strokes after a release; the first two change nothing. |
| `EisInput.KeyStaysInStep` | agent/modules/desktop-mutter/eis_input.cpp:162-174 | A key event keeps the device's set equal to the compositor's and the trace alternating. |
| `EisInput.ButtonStaysInStep` | agent/modules/desktop-mutter/eis_input.cpp:145-153 | A button event does too. |
| `EisInput.ReleaseAllReleases` | agent/modules/desktop-mutter/eis_input.cpp:176-181 | After it no key, no button is down if and only if there was a device for those held, and only then is the device in step; the trace alternates regardless. |
| `EisInput.ReleaseAllWithoutDevice` | agent/modules/desktop-mutter/eis_input.cpp:176-181 | The input that fails: a held key without a keyboard stays down and is forgotten. |
| `EisInput.StrokeTrace` | agent/modules/desktop-mutter/eis_input.cpp:199-204 | A stroke on an idle keyboard is its modifiers down, its key down and up, its modifiers up in reverse, and the keyboard idle again. |
| `EisInput.TypedTrace` | agent/modules/desktop-mutter/eis_input.cpp:199-204 | A text is its strokes' events in order. |
| `EisInput.TextIsTyped` | agent/modules/desktop-mutter/eis_input.cpp:199-204 | Seen from the compositor: each stroke's key tapped once, in order, with exactly its modifiers held, and nothing down at the end. |
| `EisInput.StrokeIsTypedIff` | agent/modules/desktop-mutter/eis_input.cpp:199-204 | On an idle keyboard any stroke, repeated modifiers included, is typed as asked if and only if its key is not among its modifiers. |
| `EisInput.StrokeHoldingItsKey` | agent/modules/desktop-mutter/eis_input.cpp:199-204 | The input that fails: a stroke whose key is its own modifier is not typed as asked. |
| `EisInput.TypedAsAskedIff` | agent/modules/desktop-mutter/eis_input.cpp:199-204 | Any strokes on an idle keyboard are typed as asked, each key once, in order, with exactly its modifiers, if and only if no stroke's key is one of its own. |
| `EisInput.UntypableMembers` | agent/modules/desktop-mutter/eis_input.cpp:192-196 | The untypable characters are exactly those without a stroke, each once. |
| `EisInput.TextIsTypedWhole` | agent/modules/desktop-mutter/eis_input.cpp:183-206 | For every text and keymap, on a device in step with the compositor: one stroke per character after a release, as asked if and only if no character's key is one of its own modifiers, with no key down after; or, without a keyboard or with a character that has no stroke, nothing at all. |
| `HandOver.Desktop.constructor` | agent/src/capabilities/desktop_capability.cpp:518-525 | No session, and nobody's input recorded. |
| `HandOver.Desktop.ReleaseAllInput` | agent/src/capabilities/desktop_capability.cpp:536-542 | Releases and forgets whose input it was, unless it is another session's. |
| `HandOver.Desktop.OnMessage` | agent/src/capabilities/desktop_capability.cpp:592-700 | Another session's input is released first, the record moves, then the message's events go out. |
| `HandOver.Desktop.Act` | agent/src/capabilities/desktop_capability.cpp:594-700 | The events of a button, a key, a combination or a text, credited to its session. |
| `HandOver.Desktop.Heed` | agent/src/core/session_manager.cpp:139-145 | Asking every session of the named operator in turn amounts to one release if the input is theirs or nobody's. |
| `HandOver.Desktop.ControlTick` | agent/src/core/session_manager.cpp:160-165 | Expiry, with the releases it reports. |
| `HandOver.Desktop.ControlInput` | agent/src/core/session_manager.cpp:92-99 | The gate: view-only refused, expiry first, then the claim and its release before the input. |
| `HandOver.Desktop.SessionDetached` | agent/src/capabilities/desktop_capability.cpp:527-534 | A session that goes is no longer the one recorded. |
| `HandOver.Desktop.CloseSession` | agent/src/core/session.cpp:1197-1230 | Release, then detach, then closing. |
| `HandOver.HeededIsBlamed` | agent/src/core/session_manager.cpp:139-145 | When a domain changes hands, heeding a change that names the old suspect leaves nothing of theirs down. |
| `HandOver.GatedKeepsInv` | agent/src/core/session_manager.cpp:92-99 | The gate keeps the invariant and leaves the admitted operator as the only suspect. |
| `HandOver.ErasedKeepsInv` | agent/src/core/session_manager.cpp:11-21 | Dropping the claim of an operator without live sessions leaves nothing down that nobody answers for. |
| `HandOver.StepKeepsInv` | agent/src/capabilities/desktop_capability.cpp:527-593 | Messages, hand-overs, expiry, heartbeats and every stage of a session's end keep the invariant. |
| `HandOver.RunsKeepInv` | agent/src/capabilities/desktop_capability.cpp:527-593 | It holds after every run. |
| `HandOver.DownWasPressedByInputSession` | agent/src/capabilities/desktop_capability.cpp:592-593 | After any run every key and button down was last pressed by the session recorded, which is still open. |
| `HandOver.EventsAlternate` | agent/modules/desktop-mutter/eis_input.cpp:145-181 | After any run presses and releases alternate, per key and per button. |
| `HandOver.AdmittedAlone` | agent/src/core/session_manager.cpp:92-99 | After any run, when input is admitted everything still down was pressed by a session of the same operator, and once acted on by that session itself. |
| `HandOver.AdmittedIffNobodyElse` | agent/src/core/session_manager.cpp:92-99 | After any run input is admitted if and only if the session may send any and no other operator's claim on the desktop is still good, by heartbeat and by input; admitted, the desktop is its operator's, used now. |
| `HandOver.AdmittedIsDone` | agent/src/capabilities/desktop_capability.cpp:592-700 | After any run an admitted message is acted on by a device in step with the compositor, after everything another session had down was let go. |
| `HandOver.ClickIsMade` | agent/src/capabilities/desktop_capability.cpp:594-700 | A click changes its button at the compositor and nothing else, with one event if it changes anything. |
| `HandOver.KeyIsMade` | agent/src/capabilities/desktop_capability.cpp:594-700 | The same for a key. |
| `HandOver.ComboTapsEach` | agent/src/capabilities/desktop_capability.cpp:594-700 | A combination has all its keys down at once and none of them after. |
| `HandOver.TextIsMade` | agent/src/capabilities/desktop_capability.cpp:594-700 | A text whose every character has a stroke is typed after a release, as asked if and only if no key is its own modifier; any other changes nothing. |
| `HandOver.ReleasedIsUp` | agent/src/capabilities/desktop_capability.cpp:536-542 | After any run a session that releases leaves nothing down, unless what is down is another's. |
| `HandOver.TakerHasTheDesktop` | agent/src/core/session_manager.cpp:101-116 | After any run a takeover makes the desktop the taker's, and nothing is down but their own. |
| `HandOver.GiverLeavesNothing` | agent/src/core/session_manager.cpp:104-107 | After any run whoever gives the desktop up has it no more and left nothing down; whoever did not have it changes nothing. |
| `HandOver.GoneHoldNothing` | agent/src/core/session_manager.cpp:167-179 | After any run a session's end takes its operator's claim along if and only if no session of theirs is left or expected back. |
| `HandOver.BobTakesOver` | agent/src/core/session_manager.cpp:101-116 | A run on which one operator holds a key and another takes the desktop: the key is let go before the desktop is the other's. |
| `DesktopSound.Sound.constructor` | agent/modules/common/desktop_sound.cpp:150-154 | Nothing wanted, known or asked. |
| `DesktopSound.Sound.Update` | agent/modules/common/desktop_sound.cpp:129-135 | Available exactly while a helper is there, reports an output and is not paused. |
| `DesktopSound.Sound.DoRequest` | agent/modules/common/desktop_sound.cpp:137-141 | Asks under a new id exactly while wanted and available. |
| `DesktopSound.Sound.Drop` | agent/modules/common/desktop_sound.cpp:142-147 | No reader and no request any more. |
| `DesktopSound.Sound.Source` | agent/modules/common/desktop_sound.cpp:160-170 | Made once, with its availability. |
| `DesktopSound.Sound.Check` | agent/modules/common/desktop_sound.cpp:91-100 | A change of the pipeline requests or lets go; no change does nothing. |
| `DesktopSound.Sound.SetPresent` | agent/modules/common/desktop_sound.cpp:172-180 | A helper that leaves takes its output, the reader and the request along. |
| `DesktopSound.Sound.SetPaused` | agent/modules/common/desktop_sound.cpp:182-189 | A pause drops, its end requests. |
| `DesktopSound.Sound.Handle` | agent/modules/common/desktop_sound.cpp:191-215 | Every message of the helper with the whole new state and what is sent; answers to other ids, or without a descriptor, change nothing. |
| `DesktopSound.Session.constructor` | agent/desktop-session/main.cpp:45-52 | Not welcomed, nothing told. |
| `DesktopSound.Session.SendSpeakers` | agent/desktop-session/main.cpp:274-287 | Tells the output exactly when welcomed and it differs from what was told. |
| `DesktopSound.Session.OutputChanged` | agent/desktop-session/main.cpp:51-51 | A new output is told at once. |
| `DesktopSound.Session.HandleMessage` | agent/desktop-session/main.cpp:123-150 | A welcome tells the output; a request is answered with the output of that moment or refused, and ignored before the welcome. |
| `DesktopSound.Session.Disconnect` | agent/desktop-session/main.cpp:85-100 | Everything told is forgotten. |
| `DesktopSound.MovesKeepQueues` | agent/modules/common/desktop_sound.cpp:137-147 | Dropping, keeping or replacing the request keeps it accounted for in the queues. |
| `DesktopSound.ReceiveKeepsInv` | agent/modules/common/desktop_sound.cpp:191-215 | Reading any message keeps the invariant: every answer on its way is about the output the agent will know when it reads it. |
| `DesktopSound.StartKeepsInv` | agent/desktop-session/main.cpp:289-304 | Answering a request keeps it too. |
| `DesktopSound.StepKeepsInv` | agent/modules/common/desktop_sound.cpp:91-216 | So does every step of agent, helper, listeners and connection. |
| `DesktopSound.RunsKeepInv` | agent/modules/common/desktop_sound.cpp:91-216 | It holds after every run. |
| `DesktopSound.ReaderIsWanted` | agent/modules/common/desktop_sound.cpp:129-216 | After any run a reader means somebody listens, the sound is available, and it reads the output the agent knows. |
| `DesktopSound.SettledMeansHeard` | agent/desktop-session/main.cpp:274-304 | After any run, with both ends up and both queues empty, the output last set is being read if and only if somebody listens, no pause is on, there is an output, and its own answer did not come to nothing; all of it by the labels and the message each receipt reads. |
| `DesktopSound.FailedIffItCameToNothing` | agent/modules/common/desktop_sound.cpp:191-215 | After any run a request counts as failed if and only if the last answer read for it was a refusal, or a start whose reader did not, and the sound has been wanted and available since without a new request. |
| `DesktopSound.EverythingIsKnown` | agent/modules/common/desktop_sound.cpp:91-189 | After any run whether the source is made, wanted and paused, and which output is set, are what the labels said last. |
| `DesktopSound.HeardWhereAllWorks` | agent/modules/common/desktop_sound.cpp:200-210 | Where every stream is handed over and every reader starts, whoever listens hears the output last set, with no other condition. |
| `DesktopSound.NoOutputIsNeverCurrent` | agent/desktop-session/main.cpp:289-294 | A refusal for want of an output always answers a request that was dropped already. |
| `ClipboardIncr.TakeProperty` | agent/modules/desktop-x11/clipboard.cpp:159-180 | A property of 8-, 16- or 32-bit items is read whole if and only if the server hands it out and it is within the limit, though the server counts in whole words. |
| `ClipboardIncr.Sending.constructor` | agent/modules/desktop-x11/clipboard.cpp:312-320 | A send begins at the start of the bytes it keeps. |
| `ClipboardIncr.Sending.SendChunk` | agent/modules/desktop-x11/clipboard.cpp:337-345 | The next bytes up to the threshold; finished exactly by the empty chunk. |
| `ClipboardIncr.Receiving.constructor` | agent/modules/desktop-x11/clipboard.cpp:222-228 | An empty buffer and no outcome. |
| `ClipboardIncr.Receiving.OnIncomingChunk` | agent/modules/desktop-x11/clipboard.cpp:233-247 | An unreadable chunk or one beyond the room left is an error, an empty one the end, any other is appended. |
| `ClipboardIncr.ServeAndRead` | agent/modules/desktop-x11/clipboard.cpp:310-345 | Content of any size served and read, whole or in chunks: exactly the content if within the reader's limit, an error if not, in finitely many rounds. |
| `ClipboardIncr.StepKeepsInv` | agent/modules/desktop-x11/clipboard.cpp:233-247 | Writing a chunk and reading one keep the transfer's invariant. |
| `ClipboardIncr.RunsKeepInv` | agent/modules/desktop-x11/clipboard.cpp:233-247 | It holds after every run. |
| `ClipboardIncr.BufferAndPropertyAreSent` | agent/modules/desktop-x11/clipboard.cpp:233-247 | Until it ends, buffer and property together are the content up to the offset, and the offset is the chunks' (section 2.7.2 of the ICCCM). |
| `ClipboardIncr.EndsWithTheContent` | agent/modules/desktop-x11/clipboard.cpp:337-345 | It ends with exactly the content after ceil(n/threshold)+1 chunks if it fits the limit, and with an error otherwise. |
| `ClipboardIncr.AlwaysEnds` | agent/modules/desktop-x11/clipboard.cpp:327-345 | Until it ends exactly one side can move, and no run has more than twice those chunks in steps. |
| `ClipboardServe.Owner.constructor` | agent/modules/desktop-x11/clipboard.cpp:20-21 | Nothing owned and nothing being sent. |
| `ClipboardServe.Owner.WriteBytes` | agent/modules/desktop-x11/clipboard.cpp:279-282 | What is owned is replaced; sends under way keep what they have. |
| `ClipboardServe.Owner.OnRequest` | agent/modules/desktop-x11/clipboard.cpp:307-321 | Refused with nothing owned, answered whole up to the threshold, or announced and queued as a send of what is owned now. |
| `ClipboardServe.Owner.OnPropertyDeleted` | agent/modules/desktop-x11/clipboard.cpp:327-335 | The first send to that window and property, and no other, writes its next chunk, and goes after the empty one. |
| `ClipboardServe.Owner.SendChunk` | agent/modules/desktop-x11/clipboard.cpp:337-345 | The next bytes up to the threshold, in the send's own place, and the send that much further. |
| `ClipboardServe.Owner.DropSend` | agent/modules/desktop-x11/clipboard.cpp:367-370 | One send goes, the others stay in order. |
| `ClipboardServe.AnswerElsewhere` | agent/modules/desktop-x11/clipboard.cpp:327-335 | An answer at one place leaves the send that answers at any other place as it is. |
| `ClipboardServe.StepKeepsInv` | agent/modules/desktop-x11/clipboard.cpp:267-373 | Writes, losses of the selection, requests, reads, deletions unread, answers and timeouts, in any order, keep every undisturbed paste a transfer of what was due to it. |
| `ClipboardServe.RunsKeepInv` | agent/modules/desktop-x11/clipboard.cpp:267-373 | It holds after every run. |
| `ClipboardServe.EachPasteGetsItsDue` | agent/modules/desktop-x11/clipboard.cpp:307-345 | After any run, however often the clipboard was rewritten and whoever else pasted, a paste with no deletion waiting at its request that a send would answer, and whose send did not time out, ended with exactly what was due at the request, in ceil(n/threshold)+1 chunks, or with an error if that is over its limit. |
| `ClipboardServe.DueAtRequest` | agent/modules/desktop-x11/clipboard.cpp:310-320 | What is due is what is owned at the request, or, too large for one property and with an earlier send to the same place, what that one has left; and the paste is disturbed exactly when a deletion waits there that a send will answer. |
| `ClipboardServe.GetsWhatWasOwned` | agent/modules/desktop-x11/clipboard.cpp:307-335 | After any run, of the last request at a place that was not refused: with no such deletion waiting, the paste, served to its end, got the bytes owned at that request if and only if they are within its limit and fitted one property, no earlier send to the same place stood, or that one had just those bytes left. |
| `ClipboardServe.SecondPasteIsOwedTheTail` | agent/modules/desktop-x11/clipboard.cpp:327-335 | The run that fails: rewritten and pasted again at the same place before the first paste is done, the second is owed the end of the first. |
| `ClipboardServe.SecondPasteGetsTheTail` | agent/modules/desktop-x11/clipboard.cpp:327-335 | And gets it, byte for byte, instead of what was owned. |
| `ClipboardServe.WaitingDeletionSpoils` | agent/modules/desktop-x11/clipboard.cpp:307-335 | The condition cannot be spared: after any run, at any request where a deletion waits that a send will answer, the paste may end with that send's next chunk, so for large content without what was owned, and for small only with it if it is that very chunk. |
| `ClipboardServe.WholeIsOverwritten` | agent/modules/desktop-x11/clipboard.cpp:310-335 | The run that fails: content that fits one property is written whole, and the deletion that waited has the earlier send's chunk written over it before it is read. |
| `ClipboardFetch.Clipboard.constructor` | agent/modules/desktop-x11/clipboard.cpp:20-21 | No display, no queue and no timer. |
| `ClipboardFetch.Clipboard.StartNext` | agent/modules/desktop-x11/clipboard.cpp:129-134 | Arms the timer exactly when attached, idle and something is queued. |
| `ClipboardFetch.Clipboard.ReadClipboard` | agent/modules/desktop-x11/clipboard.cpp:111-127 | Refused or answered on the spot, callback and what it reads included, or queued last. |
| `ClipboardFetch.Clipboard.RunCallback` | agent/modules/desktop-x11/clipboard.cpp:155-155 | A callback's reads, in order, each as any other read. |
| `ClipboardFetch.Clipboard.Finish` | agent/modules/desktop-x11/clipboard.cpp:147-157 | The front leaves, its callback runs, the next starts. |
| `ClipboardFetch.Clipboard.DetachDisplay` | agent/modules/desktop-x11/clipboard.cpp:52-66 | Everything queued is settled in order, told or not, and reads made meanwhile are refused. |
| `ClipboardFetch.ReadKeeps` | agent/modules/desktop-x11/clipboard.cpp:111-134 | A read, however deep its callbacks read in turn, settles nothing, keeps the order and keeps the timer right. |
| `ClipboardFetch.FinishSettles` | agent/modules/desktop-x11/clipboard.cpp:147-157 | Finishing settles exactly the front, tells it, and leaves the timer right whatever the callback read. |
| `ClipboardFetch.EndedSettles` | agent/modules/desktop-x11/clipboard.cpp:52-66 | A detach settles all that was queued, in order, and queues nothing. |
| `ClipboardFetch.StepKeepsInv` | agent/modules/desktop-x11/clipboard.cpp:52-157 | Attaching, detaching, owning, reading, answers, timeouts and new owners keep the invariant. |
| `ClipboardFetch.RunsKeepInv` | agent/modules/desktop-x11/clipboard.cpp:52-157 | It holds after every run. |
| `ClipboardFetch.TimerRunsWhileWaiting` | agent/modules/desktop-x11/clipboard.cpp:129-157 | After any run, attached: the timer is armed if and only if something is queued; detached: neither. |
| `ClipboardFetch.AnsweredInOrder` | agent/modules/desktop-x11/clipboard.cpp:111-157 | After any run the i-th fetch ever queued is the i-th settled or waits at its place. |
| `ClipboardFetch.SettledStays` | agent/modules/desktop-x11/clipboard.cpp:52-157 | A step settles nothing, the front, or at a detach everything; nothing settled is settled again. |
| `ClipboardFetch.ToldUnlessSilent` | agent/modules/desktop-x11/clipboard.cpp:64-65 | Without a silent detach every fetch settled was told. |
| `ClipboardFetch.EveryCallbackOnce` | agent/modules/desktop-x11/clipboard.cpp:111-157 | After any run the callbacks called are those of reads answered on the spot and of reads settled and told, once each. |
| `ClipboardFetch.ReadIsQueuedOrAnswered` | agent/modules/desktop-x11/clipboard.cpp:111-127 | A read while attached, with another owner, is queued last and the timer runs; any other is answered on the spot and its callback called. |
| `ClipboardFetch.NoReadIsLost` | agent/modules/desktop-x11/clipboard.cpp:111-157 | After any run every read, as often as it was made from outside or by a callback that ran, was answered on the spot, was settled or waits; and so with every new owner's offer. |
| `NetAddressing.ParseNumber` | agent/src/capabilities/net_addressing.cpp:19-21 | The value of a text of digits, or nothing for any other text. |
| `NetAddressing.ParseAddress` | agent/src/capabilities/net_addressing.cpp:11-28 | Exactly the texts of four numbers up to 255 between dots are read, to the address they mean. |
| `NetAddressing.AddressOfDotted` | agent/src/capabilities/net_addressing.cpp:11-34 | Every one of the 2^32 addresses survives being written and read. |
| `NetAddressing.DottedOfAddress` | agent/src/capabilities/net_addressing.cpp:11-34 | A text that is read is written back the same if and only if no number in it has a leading zero. |
| `NetAddressing.ParseRange` | agent/src/capabilities/net_addressing.cpp:36-48 | Exactly an address, a slash and a prefix of 8 to 30, on a block boundary. |
| `NetAddressing.BlockOfText` | agent/src/capabilities/net_addressing.cpp:36-48 | Every such block survives being written and read, and nothing else does. |
| `NetAddressing.BlockMembers` | agent/src/capabilities/net_addressing.hpp:16-21 | A block ends within 32 bits and contains exactly the addresses from its base on. |
| `NetAddressing.DerivedIsFit` | agent/src/capabilities/net_addressing.cpp:52-66 | For every hash and every block accepted: the address is in the block if and only if the prefix is 23 or less or the hash wraps back into it; it is the operator's for exactly one hash, in the smaller blocks; it is never the top one of its block; and it is also outside the first 256 if and only if the prefix is 23 or less. |
| `NetAddressing.DerivedMisses` | agent/src/capabilities/net_addressing.cpp:52-66 | The input that fails: in 10.0.0.0/24 the hash 0 lands in 10.0.1.0. |
| `NetAddressing.EndsDiffer` | agent/src/capabilities/net_capability.cpp:222-238 | Of every configuration accepted: the operator's end is in the block; the ends differ if and only if the address is pinned, the prefix is 23 or less or the hash is not the one that wraps onto the operator's; and this end is in the block if and only if pinned, large or wrapped back. |
| `NetAddressing.EndsCollide` | agent/src/capabilities/net_capability.cpp:222-238 | The input that fails: in 10.0.0.0/24 the hash 0xFFFFFF01 gives both ends 10.0.0.1. |
| `NetAddressing.PinnedIsUsed` | agent/src/capabilities/net_capability.cpp:222-238 | A pinned address is accepted if and only if it is in the block and not the operator's, and is then the one used. |
| `NetAddressing.DefaultBlock` | agent/src/capabilities/net_capability.cpp:222-231 | The default 100.64.0.0/10 is accepted and gives every robot an address in it, outside its first 256. |
| `NetAddressing.InspectsHeaders` | agent/src/capabilities/net_addressing.cpp:68-84 | Of every well-formed IPv4 header and whatever follows it the inspection finds addresses, protocol and port (section 3.1 of RFC 791). |
| `NetAddressing.OnlyHeadersPass` | agent/src/capabilities/net_addressing.cpp:68-84 | What passes for IPv4 is the bytes of a well-formed header and what follows it. |
| `NetAddressing.Check` | agent/src/capabilities/net_addressing.cpp:100-117 | Allowed if and only if from the peer and to a group, or to this end on an open port; and which refusal applies when. |
| `NetAddressing.MulticastGroups` | agent/src/capabilities/net_addressing.cpp:98-98 | The groups are exactly 224.0.0.0 to 239.255.255.255. |
| `NetLink.NetCapability.constructor` | agent/src/capabilities/net_capability.cpp:68-93 | No link, no traffic, all counters zero. |
| `NetLink.NetCapability.CloseLink` | agent/src/capabilities/net_capability.cpp:170-182 | Nobody holds the link or reads the interface; the counters stay. |
| `NetLink.NetCapability.SessionDetached` | agent/src/capabilities/net_capability.cpp:271-278 | Only the holder's going closes the link. |
| `NetLink.NetCapability.OpenLink` | agent/src/capabilities/net_capability.cpp:315-337 | Busy, unavailable, or the caller's from now on with all counters at zero, whatever had queued up. |
| `NetLink.NetCapability.OnBinary` | agent/src/capabilities/net_capability.cpp:280-310 | A packet of a session is written or is counted under exactly one reason. |
| `NetLink.NetCapability.Forward` | agent/src/capabilities/net_capability.cpp:352-373 | A packet of the interface is sent or is counted under exactly one reason. |
| `NetLink.NetCapability.OnReadable` | agent/src/capabilities/net_capability.cpp:337-381 | Up to 32 reads, interrupted ones included, until there is nothing more; a callback whose link is gone goes too. |
| `NetLink.NetCapability.ShutDown` | agent/src/capabilities/net_capability.cpp:417-424 | No link and no device any more. |
| `NetLink.BatchKeepsInv` | agent/src/capabilities/net_capability.cpp:337-381 | A batch keeps the invariant and the holder, and handles no more packets than it may. |
| `NetLink.StepKeepsInv` | agent/src/capabilities/net_capability.cpp:170-381 | Opens, closes, detaches, packets and shutdown keep the invariant. |
| `NetLink.RunsKeepInv` | agent/src/capabilities/net_capability.cpp:170-381 | It holds after every run. |
| `NetLink.InboundIsPoliced` | agent/src/capabilities/net_capability.cpp:280-310 | After any run every packet that reached the interface came from the session then holding the link, fits the MTU, and goes from the operator to this robot on an open port or to a group. |
| `NetLink.OutboundIsPoliced` | agent/src/capabilities/net_capability.cpp:352-373 | After any run every packet sent went to the session then holding the link, fits the MTU, and goes from this robot to the operator or a group. |
| `NetLink.EveryPacketIsCounted` | agent/src/capabilities/net_capability.cpp:271-381 | After any run the packets since the last open are the sum of the two traffic and four drop counters. |
| `NetLink.TrafficIsMetered` | agent/src/capabilities/net_capability.cpp:308-309 | After any run the traffic counters are the packets and bytes that passed since the last open. |
| `NetLink.LinkObeysTheRules` | agent/src/capabilities/net_capability.cpp:170-381 | After any run, by the labels alone: whose the link is, exactly which packets reached the interface and the channel and in which order, and each of the six counters as the number of packets since the last open that got through that way or first failed that counter's condition. |
| `NetLink.ArrivedMeetsItsFate` | agent/src/capabilities/net_capability.cpp:280-310 | A packet of a session is written if and only if it comes from the holder with the device there, fits the MTU, is for this robot by its header, and is taken; otherwise only the counter of the first condition unmet moves. |
| `NetLink.BatchMeetsItsFates` | agent/src/capabilities/net_capability.cpp:337-381 | The same for every packet of a batch read from the interface. |
| `NetLink.OneLinkAtATime` | agent/src/capabilities/net_capability.cpp:315-325 | After any run nobody else's open, close, detach or packet changes who holds the link or reaches either side. |

## Left out

- GStreamer, PipeWire, D-Bus, Xlib, libei and TUN calls are environment steps, oracles or recorded traces; SHA-256 is an arbitrary word.
- File descriptors, mappings, pixel copies, caps, PODs and plane offsets of `Frames`: only slots, tokens, deliveries and counts matter to ownership.
- The keepalive's clock: whether a repeat is due is a parameter, and the time of the newest frame is not kept.
- In `Frames` a shared-memory delivery comes only under a shared-memory format, and mutter delivers only buffers it owns: assumptions about mutter.
- The memory adopt and restart path of the stream reader, which works in lock windows between two mutexes.
- Delivery numbers, request ids and counters are unbounded; the source's are 32 or 64 bits wide.
- BlobStore.StoreIsBounded: is about chunks within their blob's length, which is what parsing lets through.
- BlobTransfer.ReceivedWhole: is about distinct uuids, blobs within the receiver's bound, and chunks of at least a byte; with chunks of none the pump sends empty frames for ever.
- BlobPump.Pump.Act: a callback's own actions in order; what the callbacks of those it cancels do in turn counts as part of them.
- The pump's `queued_bytes`: a sum that nothing here depends on.
- Reasons and error texts are constructors of a datatype, not strings.
- HandOver.StepKeepsInv: is about the desktop domain, sessions granted the desktop, and a driver and input device that stay usable; the motion domain follows the same gate.
- Pointer motion, wheel, clipboard and monitor messages send no key or button and are one kind of message here.
- The keymap lookup and UTF-8 decoding: a keymap is a map from code points to strokes.
- DesktopSound.SettledMeansHeard: is about one helper program at a time; whether PipeWire hands a stream over, and whether the reader starts on it, is an oracle whose refusal counts as failed.
- Matching a late SelectionNotify to a fetch that timed out: the code does not correlate answers, and here an answer is the front's.
- The clipboard's lists of targets and timestamps, the refusals of a write, and which X events a window is watched for.
- ClipboardServe.EachPasteGetsItsDue: is about pastes whose send does not time out and whose reader deletes nothing unread; such deletions are steps of a run, but promise that paste nothing.
- NetAddressing.ParseAddress: counts octets without a bound, where the source counts in an int.
- Bit masks on addresses and header bytes are divisions and remainders of the numbers they mean.
- NetLink.RunsKeepInv: takes a session's name to be non-empty, since the empty one stands for no link.
- The tunnel's statistics timer and the SCTP abandonment counters, which the transport reports.
- Monitor ids, EDID, X11 layout, cameras, terminal, configuration, logging, daemon, introspection and web: not part of this model.
