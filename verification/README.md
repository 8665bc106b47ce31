# Runner and supervisor data plane: a verified model

This project models the parts of the agent platform that keep state over long,
failure-prone runs, and proves what their comments promise.

- **The turn's answer** (`Answer`, `AnswerMeaning`, `AnswerAgreement`,
  `AnswerClaims`, `AnswerTracking`): which of
  an agent's words a turn keeps, out of a stream of deltas, corrections, tool
  calls and claimed replies.
- **Port streams and their hub** (`PortStream`, `PortDuplexes`, `PortHub`,
  `PortHubFates`, `PortHubIsolation`, `PortHubObject`): byte streams multiplexed
  over one control channel, with a credit window each way and a cap per sandbox.
- **The turn-event pipeline** (`TurnEvents`, `Collector`, `EventSizes`,
  `FewestPosts`, `CollectorObject`): merging, clamping and splitting a turn's
  events, and the buffer with timers around it.
- **Reporting** (`ControlPlane`, `ReportChain`, `ReportChainObject`): the
  posting loop and the queue above it, which retry only what provably never
  applied.
- **Files out of a sandbox** (`Base64`, `Attachments`, `FileParts`,
  `FileAnswers`, `FilePartsObject`, `FileRoundTrip`): a file cut into base64
  frames, and the fail-closed assembler that puts such frames together again.
- **The lifecycle executor** (`Semaphores`, `KeyedChains`, `SemaphoreObject`,
  `KeyedChainsObject`, `Lifecycle`, `LifecycleHistory`, `LifecycleObject`):
  per-sandbox chains, a counted semaphore, and starts that supersede or absorb
  one another.
- **The connection limiter** (`Limits`, `LimitsMemory`, `LimitsObject`): two
  ceilings and a token bucket per address, with idle buckets pruned.
- **Link cards** (`CardLinks`, `LeadIn`, `LeadInMeaning`, `LinkLifting`,
  `LinkBreaks`): the card rows made of an answer's connect links, and the prose
  that is left when those links are lifted out.

Each stateful component has two modules. One holds its state as a value, a
function for every atomic step between two awaits, the steps its environment may
take (`Op`, with `Legal` or `Possible` saying when), and theorems over every run
of such steps. The other is the object the source runs: a class with the
source's own mutable fields, whose methods, loops included, are proved to take
the state to exactly what the step function says. Failures, timers, the network,
the guest, the clock and the order of tasks are nondeterministic environment
steps.

Where a comment in the source says more than the code does, the model follows
the code:

- The answer tracker's memory guard is checked before a delta is added, so one
  delta may overshoot it (`AnswerMeaning.GuardOvershoots`). The guard holds
  across a delta exactly when `AnswerMeaning.DeltaWithinGuard` says, and the
  bound proved over runs is the guard less one plus the longest delta or
  correction.
- Words that arrive for a message from before a tool call join that message, so
  the answer can hold more than what was said after the last call
  (`AnswerMeaning.CrossingDiffers`), and a correction can take back words said
  before it (`AnswerAgreement.CorrectionDiffers`). The agreement with the
  definition is proved for events in which no message id crosses a tool event
  and no stretch outgrows the guard, and from there `AnswerAgreement` says, for
  every next delta and correction, exactly when the two still agree.
- Clamping a string twice is not the same as clamping it once
  (`TurnEvents.CleanTwice` says exactly when it is).
- The wire refuses a batch over 1,000,000 characters, and no flush ever exceeds
  that, whatever its text (`EventSizes.EveryPostAccepted`). The runner's own
  target for a batch, 256,000 characters, can be passed by one clamped event
  (`EventSizes.ToolEndOutgrows`), although a comment says none can, so the bound
  on every batch is "within the target, or a single event". The batches all keep
  to the target exactly when each event does (`TurnEvents.BySizeWithinCap`), and
  the only events that may not are tool ends (`EventSizes.OnlyToolEndsOutgrow`).
- A key's chain stays in the executor's map until the cleanup callback after its
  last task has run, a moment longer than the task itself.
- A start that supersedes a queued one keeps that one's place, so nothing is
  claimed about the order of starts and stops.

## Model

| member | source | states |
|---|---|---|
| Answer.RunKeeps | apps/sandbox-supervisor/src/answer.ts:115-282 | over every run of events, corrections and claims, framed ids of the two live stretches are pairwise distinct and never retired ones, each stretch's count is the sum of its message lengths, and it stays within the guard less one plus the longest delta or correction |
| Answer.ClaimsConserved | apps/sandbox-supervisor/src/answer.ts:217-279 | over every run, the claims with words are, as a multiset, those handed over plus those still held: none is lost and none is handed over twice |
| Answer.TextSilent | apps/sandbox-supervisor/src/answer.ts:65-71 | a stretch reads as the empty answer exactly when every message in it is blank |
| AnswerMeaning.AnswerIsSimple | apps/sandbox-supervisor/src/answer.ts:7-39 | the mutable tracker computes the definition given on the event list alone (last tool-free stretch with words, its messages in order of first words, trimmed, blanks dropped, joined by a blank line), corrections included, when no id crosses a tool event and no stretch outgrows the guard |
| AnswerMeaning.NeverSilenced | apps/sandbox-supervisor/src/answer.ts:105-112 | one half of the row below, for any state: a non-empty answer becomes empty only through a correction, or a tool call that hands over a held reply |
| AnswerClaims.SilencedExactly | apps/sandbox-supervisor/src/answer.ts:105-112 | from any state with an answer, a step silences it if and only if it is a correction that erases the only message with words, or a tool call whose held replies cover, word for word and copy for copy, every message with words |
| AnswerClaims.ClaimsTakenOut | apps/sandbox-supervisor/src/answer.ts:203-279 | after any events as in `AnswerMeaning.AnswerIsSimple` and any claims: the answer is the definition's paragraphs with each claimed reply in turn taken out where it last stands, unless it was all that was shown |
| AnswerClaims.StepParas | apps/sandbox-supervisor/src/answer.ts:203-279 | for any state and step, claims and held replies included: the paragraphs of the live stretches are those with the event's words, less the replies that may go, one after another, closed at a tool event |
| AnswerClaims.TakeOutParas | apps/sandbox-supervisor/src/answer.ts:217-237 | a reply leaves the last paragraph that reads so, of the closing talk first, unless it is blank or all the answer shows |
| AnswerClaims.ClaimVerdict | apps/sandbox-supervisor/src/answer.ts:275-279 | from any state, a claim is handed over at once if and only if it has words and the paragraphs shown are not just those words; it is held, behind what is held already, if and only if it has words and they are all that is shown |
| AnswerClaims.EventVerdicts | apps/sandbox-supervisor/src/answer.ts:239-274 | from any state, of the replies an event tries in turn each is handed over exactly when its words may leave what the ones before it left, and stays held otherwise, both in order; an event that tries none hands over and drops none |
| AnswerClaims.IdsAccounted | apps/sandbox-supervisor/src/answer.ts:130-198 | no id is forgotten: one that is live, or comes to life, stays so, or is retired, or its message reads as a reply handed over at that step; and what is retired was live |
| AnswerClaims.CloseRetires | apps/sandbox-supervisor/src/answer.ts:188-198 | closing a stretch retires exactly the framed ids that cease to be live by it |
| AnswerMeaning.DeltaLands | apps/sandbox-supervisor/src/answer.ts:136-167 | words that are not refused go to the end of their message, or make the last message of the current stretch, and change nothing else of the stretch |
| AnswerMeaning.CorrectionFills | apps/sandbox-supervisor/src/answer.ts:169-186 | a correction of a live message puts there as much of the new text as the guard leaves room for beside the rest of the stretch |
| AnswerMeaning.ToolKeepsAnswer | apps/sandbox-supervisor/src/answer.ts:256-270 | a tool event that hands over nothing leaves the answer's words exactly as they were |
| AnswerMeaning.CloseStretchAnswer | apps/sandbox-supervisor/src/answer.ts:188-201 | closing a stretch, blank or not, never changes the answer |
| AnswerMeaning.GuardOvershoots | apps/sandbox-supervisor/src/answer.ts:155-167 | an input that passes the guard: a stretch one short of it takes a whole further delta of any length |
| AnswerMeaning.DeltaWithinGuard | apps/sandbox-supervisor/src/answer.ts:41-48 | from a stretch within the guard, a delta leaves it within if and only if its words are refused or fit into the room left, and the other stretch is never touched |
| AnswerMeaning.CorrectionWithinGuard | apps/sandbox-supervisor/src/answer.ts:169-186 | a correction of a live message always stays within the guard; one of a message that is not live does exactly when a delta would |
| AnswerMeaning.CrossingDiffers | apps/sandbox-supervisor/src/answer.ts:136-153 | an input with one id on both sides of a tool call on which the tracker answers "AB" and the definition gives "B" |
| AnswerAgreement.DeltaAgrees | apps/sandbox-supervisor/src/answer.ts:136-167 | for every list of events as in `AnswerMeaning.AnswerIsSimple`, and any next delta, crossing or past the guard: they still agree if and only if its words are taken into the closing talk, or are blank, or the closing talk is silent and the tracker refuses words that read as the earlier answer |
| AnswerAgreement.CorrectionAgrees | apps/sandbox-supervisor/src/answer.ts:136-186 | the same for any next correction: of a message of the closing talk, exactly when the guard cuts off no words that matter; of the fallback, exactly when the closing talk speaks and the correction is blank, or it is silent and the correction is as blank as the message was or is all the fallback then says (in the corner where others speak there and the guard cut words off, exactly when the paragraphs before, the words kept and the paragraphs after spell it out); of no live message, as for a delta |
| AnswerAgreement.CorrectionDiffers | apps/sandbox-supervisor/src/answer.ts:169-186 | an input on which a late correction silences the tracker and the definition still gives "A" |
| AnswerTracking.AnswerTracker.Retire | apps/sandbox-supervisor/src/answer.ts:130-134 | the loop retires exactly the framed ids of the stretch |
| AnswerTracking.AnswerTracker.Append | apps/sandbox-supervisor/src/answer.ts:155-167 | the in-place update is the append step: late words to their own stretch, retired ids and a full stretch refused |
| AnswerTracking.AnswerTracker.Replace | apps/sandbox-supervisor/src/answer.ts:169-186 | the in-place correction is the replace step, cut to the room left, or an append when the message is unknown |
| AnswerTracking.AnswerTracker.CloseStretch | apps/sandbox-supervisor/src/answer.ts:188-198 | the fallback moves only for a stretch with words; what is let go of is retired |
| AnswerTracking.AnswerTracker.LastWith | apps/sandbox-supervisor/src/answer.ts:203-215 | two backwards loops compute the place found last, the current stretch before the fallback, or none |
| AnswerTracking.AnswerTracker.TakeOut | apps/sandbox-supervisor/src/answer.ts:217-237 | takes the reply out unless it is blank or the answer's only words, and says which |
| AnswerTracking.AnswerTracker.Release | apps/sandbox-supervisor/src/answer.ts:239-245 | hands over, in order, the held replies that can be let go of one after another, and keeps the rest |
| AnswerTracking.AnswerTracker.Observe | apps/sandbox-supervisor/src/answer.ts:247-274 | one event of the turn takes the object to the step's state and returns the replies it handed over |
| AnswerTracking.AnswerTracker.Claim | apps/sandbox-supervisor/src/answer.ts:275-279 | a claim is handed over now, or held if it has words, and nothing else changes |
| AnswerTracking.AnswerTracker.Answer | apps/sandbox-supervisor/src/answer.ts:280 | the answer read is the text of the closing stretch, or of the fallback when that is blank |
| PortStream.SentIsWritten | apps/runner/src/port-hub.ts:109-143 | over every run, whatever the guest grants, frame payloads followed by the held chunk are the bytes written, in order (of a destroyed stream, the payloads are a front of them); every frame is 1 to 48 KiB; no more is sent than the window plus what was granted |
| PortStream.SendsAllItMay | apps/runner/src/port-hub.ts:109-143 | against a guest that never acks more than it was sent, a live stream has sent exactly the lesser of what was written and the window plus what was granted: no credit is lost and no write wedges |
| PortStream.SendsExactly | apps/runner/src/port-hub.ts:109-143 | whatever the guest grants, over-grants included: the bytes sent and the limit on them are at every moment those of a plain account, where a write sends the lesser of what is written and the limit, and a grant raises the limit to at most one window past what was sent |
| PortStream.EndFollowsData | apps/runner/src/port-hub.ts:145-148 | the clean end goes out at most once, and only behind every byte written |
| PortStream.AckedIsReceived | apps/runner/src/port-hub.ts:150-183 | acked plus unacked is always what was delivered; the readable buffer is the delivered bytes not yet taken, in order, and stays within high-water mark, window and one chunk for any guest |
| PortStream.HonestGuestNeverCut | apps/runner/src/port-hub.ts:161-183 | a guest that stays within window plus acked and sends nothing behind its own end is destroyed only by a close, and never needs the chunk of slack |
| PortStream.DeliveredIs | apps/runner/src/port-hub.ts:161-183 | a delivery cuts the stream if and only if it would pass the mark, a window and a chunk, or comes behind the guest's end; else it is buffered, and all but the excess over a window is acked at once if the buffer stays below its mark, and nothing if not |
| PortStream.AcksPromptly | apps/runner/src/port-hub.ts:150-183 | over every run of a guest that keeps to its window, nothing is left unacked whenever a delivery or a read leaves the buffer below its mark |
| PortStream.EndsKnown | apps/runner/src/port-hub.ts:145-183 | over every run, the readable side has ended if and only if the guest's end came, and the writable side if and only if it was finished |
| PortStream.EveryAckSized | apps/runner/src/port-hub.ts:150-159 | over every run, no ack is for nothing, nor for more than a window |
| PortStream.FramesFacts | apps/runner/src/port-hub.ts:124-135 | the frames carry the front of a chunk, each of a legal size, and leave a rest exactly when the credit ran out |
| PortStream.FramesFull | apps/runner/src/port-hub.ts:124-135 | every frame of a chunk but the last is of the full 48 KiB |
| PortDuplexes.PortDuplex.Grant | apps/runner/src/port-hub.ts:109-117 | credit is raised within the window and a held write resumed with it |
| PortDuplexes.PortDuplex.Write | apps/runner/src/port-hub.ts:119-143 | the loop over the offset emits exactly the frames the credit allows and holds the rest |
| PortDuplexes.PortDuplex.Final | apps/runner/src/port-hub.ts:145-148 | emits the clean end |
| PortDuplexes.PortDuplex.Read | apps/runner/src/port-hub.ts:150-159 | acks what is unacked, at most a window of it |
| PortDuplexes.PortDuplex.Deliver | apps/runner/src/port-hub.ts:161-183 | cuts a stream that would overflow or has ended, else buffers, and acks only while the buffer is below its mark |
| PortDuplexes.PortDuplex.End | apps/runner/src/port-hub.ts:323-325 | the guest's own end closes the readable side and touches nothing else |
| PortDuplexes.PortDuplex.Destroy | apps/runner/src/port-hub.ts:185-190 | drops the held write |
| PortHub.RunKeeps | apps/runner/src/port-hub.ts:206-350 | over every run, the count of each sandbox is the number of its tracked streams, absent meaning none, within the cap; each open settles at most once; every tracked stream is either open or pending with a timer |
| PortHubFates.HubShowsFates | apps/runner/src/port-hub.ts:206-350 | over every run, each stream is tracked, timed and settled as one small machine of its own says, which knows of the others only whether its sandbox is full: refused with that very code at the cap, without a sandbox, by the timeout, by the guest's error or by a close before it opened, and resolved otherwise |
| PortHubFates.StepShows | apps/runner/src/port-hub.ts:235-350 | one step of it: which step settles an open with which outcome, and which drops or ends a stream |
| PortHub.FrameStaysHome | apps/runner/src/port-hub.ts:283-332 | one step of the property below: a frame authenticated for one sandbox, whatever stream id it names, changes no stream, count, timer or promise of another |
| PortHub.SocketLosesItsOwn | apps/runner/src/port-hub.ts:338-350 | a closed socket loses every stream of its sandbox and touches no other, in whatever order they are dropped |
| PortHubIsolation.SandboxesApart | apps/runner/src/port-hub.ts:206-350 | over every run, with any steps of other sandboxes between: the steps that concern one sandbox are a run of their own, after which its count and every stream it ever asked for are tracked, timed and settled exactly as in the shared hub |
| PortHubObject.PortHub.DropStream | apps/runner/src/port-hub.ts:224-232 | forgets a stream once, keeping the count exact and clearing its timer |
| PortHubObject.PortHub.Open | apps/runner/src/port-hub.ts:235-281 | refuses at the cap, tracks and counts otherwise, and rejects at once when the sandbox is not connected |
| PortHubObject.PortHub.OpenTimedOut | apps/runner/src/port-hub.ts:260-268 | the timer drops the stream and rejects its promise |
| PortHubObject.PortHub.Handle | apps/runner/src/port-hub.ts:283-332 | routes a frame by kind only when the authenticated sandbox owns the stream |
| PortHubObject.PortHub.SandboxGone | apps/runner/src/port-hub.ts:338-350 | the loop rejects the pending streams of the sandbox and destroys its open ones, and no other |
| TurnEvents.Coalesce | apps/runner/src/turn-events.ts:57-73 | the loop computes the merge function |
| TurnEvents.CoalescedExpands | apps/runner/src/turn-events.ts:53-73 | merging preserves meaning: the same characters of the same kinds in the same order, every other event whole and in place |
| TurnEvents.CoalescedOnce | apps/runner/src/turn-events.ts:53-73 | no two text deltas and no two thinking deltas are left side by side, and events without such neighbours are left alone, so merging again changes nothing |
| TurnEvents.CleanBounds | apps/runner/src/turn-events.ts:90-108 | a cleaned string has no NUL and its exact length bound |
| TurnEvents.CleanCuts | apps/runner/src/turn-events.ts:101-108 | a cleaned string is the text without its NULs where that is within 16,000 characters; otherwise its first 16,000 and the mark with the number cut off |
| TurnEvents.WithoutNulSplits | apps/runner/src/turn-events.ts:101-102 | stripping NULs goes character by character, so every other character stays, in order |
| TurnEvents.DecimalReads | apps/runner/src/turn-events.ts:105-107 | the number in the mark is written in decimal: its digits read as it, without a leading zero |
| TurnEvents.ClampCuts | apps/runner/src/turn-events.ts:115-169 | kind by kind, the clamp keeps the kind, the flags, the counts and the usage, and makes of each string, and of nothing else, what cleaning makes of it |
| TurnEvents.ClampKeepsPlain | apps/runner/src/turn-events.ts:115-169 | the clamp leaves an event as it is if and only if each of its strings is NUL-free and within 16,000 characters, or is over by 28 that are the mark itself |
| TurnEvents.CleanFixed | apps/runner/src/turn-events.ts:101-108 | a string is left alone if and only if it is storable and within the ceiling, or 28 over it and already ending in its own mark |
| TurnEvents.CleanTwice | apps/runner/src/turn-events.ts:101-108 | cleaning is idempotent on a string if and only if, without its NULs, it fits or is over by exactly 28 characters |
| TurnEvents.Chunk | apps/runner/src/turn-events.ts:75-82 | the loop computes the split by count |
| TurnEvents.ChunksFacts | apps/runner/src/turn-events.ts:75-82 | the parts concatenate to the items, none is empty or over the size, and only the last may be short |
| TurnEvents.ChunkBySize | apps/runner/src/turn-events.ts:176-196 | the loop computes the greedy split by serialized size |
| TurnEvents.BySizeSplits | apps/runner/src/turn-events.ts:176-196 | the batches concatenate to the events, none is empty, and each is within the given size or a single event |
| TurnEvents.BySizeWithinCap | apps/runner/src/turn-events.ts:171-196 | all batches keep to the given size if and only if no single event exceeds it |
| TurnEvents.BySizeFewest | apps/runner/src/turn-events.ts:171-196 | no order-preserving split into batches that are each within the size or a single event uses fewer: greedy is optimal |
| Collector.RunKeeps | apps/runner/src/turn-events.ts:231-307 | over every run, each buffered turn has something to send and an armed timer, and a flush of everything leaves nothing |
| Collector.PostsAreLegal | apps/runner/src/turn-events.ts:245-259 | over every run, no post is empty, over the count cap, or over the runner's target size with more than one event |
| EventSizes.EveryPostAccepted | apps/runner/src/turn-events.ts:20-23 | over every run of adds, flushes and timers, with no condition on the text: the wire takes every post, 1 to 100 events and at most 1,000,000 characters as a JSON array, so no flush is ever refused for its size |
| EventSizes.FlushAccepted | packages/agent-protocol/src/runner-wire.ts:742-756 | the same for what one flush posts from any buffer |
| EventSizes.AnyEventFits | packages/agent-protocol/src/runner-wire.ts:433-438 | no clamped event of any kind, a tool's end of nothing but control characters included, takes more than 400,000 characters |
| EventSizes.ArrayLength | apps/runner/src/turn-events.ts:185 | the running size the split keeps is the length of the batch as a JSON array, but for one bracket |
| Collector.PostsWithinCap | apps/runner/src/turn-events.ts:41-42 | over every run, all posts keep to the runner's target of 256,000 characters if and only if no single event posted exceeds it |
| Collector.FlushWithinCap | apps/runner/src/turn-events.ts:171-196 | a flush keeps to the target if and only if each event prepared from the buffer does |
| EventSizes.OtherKindsFit | apps/runner/src/turn-events.ts:171-175 | every clamped event that is no tool's end, whatever its text, is within the target as JSON |
| EventSizes.ClampedWithin | apps/runner/src/turn-events.ts:101-169 | clamping bounds each string of any event by the ceiling, the mark and its 16 digits |
| EventSizes.ToolEndOutgrows | apps/runner/src/turn-events.ts:171-175 | a family that passes the target: a tool's end whose four strings are 16,000 control characters without a short escape is left alone by the clamp and makes a batch over it |
| EventSizes.OversizedEvent | apps/runner/src/turn-events.ts:171-175 | and a single event of that family, as the input on which the source's comment fails |
| EventSizes.OnlyToolEndsOutgrow | apps/runner/src/turn-events.ts:238-260 | whatever is buffered, a flush posts over the target only a tool's end on its own, and does so if and only if it prepared one that is too large |
| Collector.Conserved | apps/runner/src/turn-events.ts:231-307 | over every run, if each merged string a flush prepared is NUL-free and within 16,000 characters (or carries its own mark), what was posted for a turn followed by what it buffers expands to what was added, character by character |
| Collector.PostedInGroups | apps/runner/src/turn-events.ts:231-307 | with no condition on the text: what was posted for a turn is the added events cut into consecutive groups, each merged and clamped, with the rest still buffered |
| Collector.FlushSends | apps/runner/src/turn-events.ts:238-260 | a flush of a turn, or its timer, empties that buffer alone and has then posted all that was ever added to the turn |
| Collector.AddWaits | apps/runner/src/turn-events.ts:272-299 | any event but a turn's last is not posted yet: it joins its own buffer, touches no other, and has a timer armed |
| Collector.PostsLabeled | apps/runner/src/turn-events.ts:250-258 | over every run, each post names the sandbox, the conversation and the turn of an event that was added |
| FewestPosts.FlushFewest | apps/runner/src/turn-events.ts:245-259 | however the events of a flush could be split in order into batches within the target or of one event, the flush makes no more posts than that, but for one more for each full hundred before the last event |
| Collector.TerminalFlushes | apps/runner/src/turn-events.ts:281-292 | a terminal event empties its conversation's buffers and no other's, and is the last event posted |
| Collector.TerminalIsLast | apps/runner/src/turn-events.ts:281-292 | when a run ends in a terminal event, all that was ever added to any turn of that conversation is already posted, group by group, merged and clamped, no later than it; and in full where the clamp cut nothing |
| CollectorObject.TurnEventCollector.Prepare | apps/runner/src/turn-events.ts:245-248 | merges, then clamps every event |
| CollectorObject.TurnEventCollector.PostEach | apps/runner/src/turn-events.ts:250-258 | the inner loop hands the batches of one part over in order |
| CollectorObject.TurnEventCollector.Flush | apps/runner/src/turn-events.ts:238-260 | the nested loops post a turn's buffer batch by batch and forget it and its timer |
| CollectorObject.TurnEventCollector.FlushConversation | apps/runner/src/turn-events.ts:262-269 | flushes the other turns of the conversation in buffering order, and only those |
| CollectorObject.TurnEventCollector.Add | apps/runner/src/turn-events.ts:272-299 | buffers an event and arms a timer, or flushes its conversation at once |
| CollectorObject.TurnEventCollector.TimerFired | apps/runner/src/turn-events.ts:294-298 | a fired timer flushes its turn |
| CollectorObject.TurnEventCollector.FlushAll | apps/runner/src/turn-events.ts:303-305 | flushes every buffered turn in order |
| ControlPlane.VerdictExact | apps/runner/src/control-plane.ts:144-218 | a failure is judged provably unapplied if and only if no request that fails so can have been applied, told from what left over each connection attempt and what the server did |
| ControlPlane.PostAppliesOnce | apps/runner/src/control-plane.ts:144-177 | on a network where what is applied has left the process and a refused or unresolved attempt sent nothing, and with a server that answers 429, 500 or 503 only when it applied nothing: a chunk's at most four requests apply it at most once, and not at all when the post fails provably unapplied |
| ControlPlane.DeliveryAppliesOnce | apps/runner/src/control-plane.ts:335-363 | on such a network, where a success means applied, what the server applied is a front of the chunks in order, each event once, and all of them when the call succeeds |
| ControlPlane.PostEventsAppliesOnce | apps/runner/src/control-plane.ts:335-363 | the same, under the same condition on the network, for a whole call of any length, whose chunks are the events in order |
| ControlPlane.DeliveryAsks | apps/runner/src/control-plane.ts:335-363 | a request that failed is followed by another of the same chunk if and only if it provably applied nothing and was not the fourth in a row for it; the requests are made one after another and the last one decides how the call ends |
| ControlPlane.PostEvents | apps/runner/src/control-plane.ts:335-363 | the two nested loops send exactly the requests of the delivery and throw exactly its failure |
| ControlPlane.PostBody | apps/runner/src/control-plane.ts:347-361 | the attempt loop takes exactly the requests of one chunk's post |
| ReportChain.AtMostOnce | apps/runner/src/report-chain.ts:4-27 | over every run and any pattern of failures, through both retry layers, each reported event is applied at most once, posted at most 65 times, and more than once only if it is a turn's end with neither of the two death codes |
| ReportChain.NoReportLost | apps/runner/src/report-chain.ts:169-184 | over every run, a report made was posted, or still waits for its first post, if and only if fewer than 200 jobs were queued when it was made, or 264 for a turn's end |
| ReportChain.QueueBounded | apps/runner/src/report-chain.ts:29-39 | the queue never exceeds 200 + 64 + 64; the per-sandbox counts are those of the re-send loops, within 8 each and 64 in all |
| ReportChain.NeverOvertaken | apps/runner/src/report-chain.ts:25-26 | a report that is never re-sent is posted after nothing reported later, so no turn's end overtakes a transcript event reported before it |
| ReportChain.LostEndIsHeld | apps/runner/src/report-chain.ts:147-159 | in any reachable state, a report whose post settles is taken up for re-sending if and only if that post provably never applied, it is a turn's end with neither death code, fewer than 64 re-sends are pending and fewer than 8 of its sandbox |
| ReportChain.ResendsUntil | apps/runner/src/report-chain.ts:123-145 | once taken up it is given up only after a post that succeeded or may have landed, or after its first post and 64 more |
| ReportChain.RunKeeps | apps/runner/src/report-chain.ts:72-187 | every run keeps the loops, the counts, the order and the at-most-once record together |
| ReportChain.AnyLegalStepRuns | apps/runner/src/report-chain.ts:83-88 | no run gets stuck: any legal next step can be taken and leads to a state with these properties |
| ReportChainObject.ReportQueue.HoldResend | apps/runner/src/report-chain.ts:90-101 | takes a place for a re-send exactly when both caps leave one |
| ReportChainObject.ReportQueue.ReleaseResend | apps/runner/src/report-chain.ts:103-108 | gives the place back, forgetting a sandbox that holds none |
| ReportChainObject.ReportQueue.Failed | apps/runner/src/report-chain.ts:147-166 | starts a re-send loop only for a resendable report whose post provably never applied and for which there is a place |
| ReportChainObject.ReportQueue.Resent | apps/runner/src/report-chain.ts:123-145 | ends the loop on success, on a failure that may have landed, or out of attempts, else sleeps again |
| ReportChainObject.ReportQueue.Report | apps/runner/src/report-chain.ts:169-184 | queues a report behind the rest, or drops it at the cap of its kind |
| ReportChainObject.ReportQueue.Settle | apps/runner/src/report-chain.ts:83-88 | the settlement of the post in flight takes the head off and goes to its report or its loop |
| ReportChainObject.ReportQueue.Wake | apps/runner/src/report-chain.ts:111-121 | a re-send goes back through the chain, behind everything queued |
| Base64.DecodeEncode | apps/runner/src/attachments.ts:38-40 | base64 (section 4 of RFC 4648) round-trips every byte string |
| Base64.DecodeUnpadded | apps/runner/src/supervisor-messages.ts:443 | and it round-trips with the padding left off |
| Base64.EncodeSameNumber | apps/runner/src/attachments.ts:38-40 | the encoding of whole groups, read as digits in base 64, is the number the bytes make in base 256; a rest is encoded as if zeros followed (`Base64.EncodeEnd`) |
| Base64.EncodeAppend | apps/runner/src/attachments.ts:10-12 | the base64 of whole groups of three bytes concatenates |
| Base64.EncodeLength | packages/agent-protocol/src/attachments.ts:144-146 | n bytes take four characters for every group of three begun |
| Attachments.FramesOf | apps/sandbox-supervisor/src/capabilities/send-file.ts:297-327 | the supervisor's loop yields the frames of the file |
| Attachments.AttachmentPartFrames | apps/runner/src/attachments.ts:15-44 | the runner's loop yields the frames of the attachment |
| Attachments.FramesCarryBytes | apps/runner/src/attachments.ts:8-44 | for all bytes, the parts are numbered 1 to their count, each within the chunk and the wire limit and non-empty for a non-empty file; their payloads concatenate to the bytes and their texts to the base64 of the whole |
| FileParts.RelayedWhole | apps/runner/src/supervisor-messages.ts:384-484 | under any interleaving of frames and clocks, a file handed on is parts 1 to `of` of one upload of one sandbox in order, with no other frame of that sandbox between them, of the length and checksum its final part declares |
| FileParts.OneFateEach | apps/runner/src/supervisor-messages.ts:300-484 | every run ever begun is exactly one of in progress, being uploaded, or answered by one `file.result`; it was relayed, once, exactly when it is being or was uploaded |
| FileAnswers.AnsweredAsUploaded | apps/runner/src/supervisor-messages.ts:347-373 | over every run, an upload is answered with an outcome if and only if it came back with that very outcome |
| FileAnswers.StepAnswers | apps/runner/src/supervisor-messages.ts:375-484 | from any reachable state, exactly which refusal each frame leaves each run, and which part that belongs to no run is refused: stalled, superseded, out of order, over its size, short, of the wrong checksum, a third in flight, or too big |
| FileParts.NoneLeftWaiting | apps/runner/src/supervisor-messages.ts:375-484 | after any run, the upload a frame names still has its run, or is being uploaded, or was answered by that very frame: no sender waits out a timeout |
| FileParts.NothingStale | apps/runner/src/supervisor-messages.ts:385-392 | once a frame came in from any sandbox, no run is left whose last part is more than 60,000 ms old, and every younger run of another sandbox is left as it was |
| FileParts.BufferBounded | apps/runner/src/supervisor-messages.ts:407-449 | a sandbox's one run buffers no more than it declared, which is within the 25 MB cap |
| FileParts.UploadsBounded | apps/runner/src/supervisor-messages.ts:334-368 | at most two uploads of a sandbox are in flight, whatever it sends |
| FileParts.RunKeeps | apps/runner/src/supervisor-messages.ts:300-484 | every run keeps the runs, the relays, the fates and the counts together |
| FileRoundTrip.FramesRelayBytes | apps/runner/src/supervisor-messages.ts:384-484 | the frames of any file within the cap, fed in order and unstalled into an assembler in any state while others send what they like, hand on exactly its bytes, once, when the last one comes in; only two uploads already in flight refuse it |
| FileRoundTrip.PartWay | apps/runner/src/supervisor-messages.ts:424-454 | until then the assembler holds exactly the bytes sent so far and hands nothing of that sandbox on |
| FilePartsObject.FileAssembler.AbandonRun | apps/runner/src/supervisor-messages.ts:375-382 | drops the sandbox's run and answers it once, or does nothing |
| FilePartsObject.FileAssembler.Sweep | apps/runner/src/supervisor-messages.ts:385-392 | the loop, in any order, drops and answers exactly the stale runs |
| FilePartsObject.FileAssembler.RelayFile | apps/runner/src/supervisor-messages.ts:330-346 | refuses past the ceiling, else counts the upload and hands the file on |
| FilePartsObject.FileAssembler.UploadSettled | apps/runner/src/supervisor-messages.ts:347-373 | gives the count back and answers the run, however the upload went |
| FilePartsObject.FileAssembler.Complete | apps/runner/src/supervisor-messages.ts:456-484 | checks length and checksum against the final part before handing on |
| FilePartsObject.FileAssembler.TakePart | apps/runner/src/supervisor-messages.ts:424-456 | takes the one part that continues the run, or resets fail-closed and answers each upload concerned |
| FilePartsObject.FileAssembler.ApplyFilePart | apps/runner/src/supervisor-messages.ts:384-484 | one frame: sweep, begin a run on a first part that fits, then take the part |
| Semaphores.RunKeeps | apps/runner/src/executor.ts:60-80 | over every interleaving, slots in use are the grants not released, within the size, somebody waits only when all are in use, and requests are granted in order |
| Semaphores.GrantsAreExact | apps/runner/src/executor.ts:60-80 | the granted requests are exactly the first so many as size and releases allow: no wake-up is lost |
| Semaphores.DoubleReleaseInert | apps/runner/src/executor.ts:55-59 | once released, a release function does nothing ever after |
| KeyedChains.RunKeeps | apps/runner/src/executor.ts:24-42 | over every interleaving, each task is chained on the one before it for its key, and the map names the end of each chain |
| KeyedChains.FirstInFirstOut | apps/runner/src/executor.ts:30-42 | a key's tasks run one at a time in enqueue order, whether or not some fail |
| KeyedChains.HeldWhileUnsettled | apps/runner/src/executor.ts:37-40 | the map holds a key if and only if its newest task is not cleaned up, so while any task of it is unsettled |
| KeyedChains.NeverWedged | apps/runner/src/executor.ts:33-36 | the first unsettled task of a key is always running or free to start |
| KeyedChains.TasksFollow | apps/runner/src/executor.ts:30-40 | over every interleaving, each task is where its own history leaves it, and the errors reported are those of the tasks that failed, in order |
| SemaphoreObject.CountedSemaphore.Acquire | apps/runner/src/executor.ts:73-78 | grants at once while a slot is free, else waits last in line |
| SemaphoreObject.CountedSemaphore.Release | apps/runner/src/executor.ts:64-69 | frees the slot once and hands it to the first in line |
| KeyedChainsObject.TaskChains.Enqueue | apps/runner/src/executor.ts:30-37 | chains a task on the end of its key's chain, which it becomes |
| KeyedChainsObject.TaskChains.Settle | apps/runner/src/executor.ts:33-36 | a failure is reported and settles the task like a success |
| KeyedChainsObject.TaskChains.CleanUp | apps/runner/src/executor.ts:38-40 | drops the chain only if nobody extended it |
| Lifecycle.OneStartEach | apps/runner/src/runner.ts:386-391 | over every interleaving, a sandbox has at most one queued start, one queued stop and one executing start |
| Lifecycle.NewestPayloadWins | apps/runner/src/runner.ts:1904-1925 | the queued start carries the newest dispatched payload; with none queued, the executing one and the last one executed do |
| LifecycleHistory.DispatchExact | apps/runner/src/runner.ts:1904-1985 | after every run, work that comes in takes the place of the start or stop queued for its sandbox; a start is dropped if and only if none is queued and one with its payload is under way; all other work goes to the end |
| LifecycleHistory.JobsFollow | apps/runner/src/runner.ts:1934-1985 | every job is at the stage its own history leaves it at, and the failures reported are those of the work that failed, in order |
| LifecycleHistory.CleanedExactly | apps/runner/src/executor.ts:37-40 | in the executor's own chains, a task is past its cleanup if and only if that was run |
| Lifecycle.InFlightCounted | apps/runner/src/runner.ts:392-408 | the count of a sandbox is the number of its starts and stops not yet reported |
| Lifecycle.HeartbeatsExact | apps/runner/src/runner.ts:422-444 | a sandbox's heartbeat is armed if and only if a start of it is queued, waits for a slot or boots |
| Lifecycle.SlotsHeld | apps/runner/src/runner.ts:1895-1903 | slots in use are exactly those of starts not over, so at most the configured number boot at a time, none is leaked by a failed boot, and a start waits only while all are held |
| Lifecycle.AlwaysEnds | apps/runner/src/runner.ts:1934-1960 | a booting or reporting start holds its slot and its place on the chain, so it can be brought to its end |
| Lifecycle.RunKeeps | apps/runner/src/runner.ts:386-444 | every run keeps the queues, the chains, the payloads, the heartbeats, the counts and the slots together |
| LifecycleObject.LifecycleExecutor.BeginLifecycle | apps/runner/src/runner.ts:397-402 | counts one more in flight |
| LifecycleObject.LifecycleExecutor.EndLifecycle | apps/runner/src/runner.ts:403-407 | counts one less, forgetting a sandbox with none |
| LifecycleObject.LifecycleExecutor.EnqueueStart | apps/runner/src/runner.ts:1905-1933 | supersedes the queued start in place, is absorbed by an identical executing one, or queues with a count and a heartbeat |
| LifecycleObject.LifecycleExecutor.EnqueueStop | apps/runner/src/runner.ts:1963-1977 | replaces the queued stop in place, or queues with a count |
| LifecycleObject.LifecycleExecutor.EnqueueWork | apps/runner/src/runner.ts:1904-1985 | routes each kind of work onto its sandbox's chain |
| LifecycleObject.LifecycleExecutor.Begin | apps/runner/src/runner.ts:1934-1937 | a start leaves the queue with the payload its slot has now, and asks for a boot slot |
| LifecycleObject.LifecycleExecutor.BootDone | apps/runner/src/runner.ts:1939-1950 | the timer stops, or is left to a queued successor, before the report |
| LifecycleObject.LifecycleExecutor.FinishStart | apps/runner/src/runner.ts:1951-1959 | whichever way a start ends, its slot, hash, count and timer are given back |
| LifecycleObject.LifecycleExecutor.FinishWork | apps/runner/src/runner.ts:1970-1984 | a stop that reported or failed is counted off |
| Limits.PruningInvisible | apps/ssh-terminator/src/limits.ts:49-57 | with a non-decreasing clock, the limiter that prunes and one that never does have the same handles, counts and bucket levels after every run |
| Limits.SameAnswer | apps/ssh-terminator/src/limits.ts:49-75 | so they give the same answer to every next call |
| Limits.ConnectionsCounted | apps/ssh-terminator/src/limits.ts:60-83 | over every run, the total and each address's count are those of the unreleased handles, within their ceilings, and no address with a live connection is pruned |
| Limits.RateBound | apps/ssh-terminator/src/limits.ts:36-74 | over every run and window, one address is let in at most its allowance times one plus the window's length in minutes |
| Limits.RefusesOnlyAtALimit | apps/ssh-terminator/src/limits.ts:60-75 | told from the connections let in so far alone: a call is admitted if and only if both ceilings leave room and one more keeps the rate bound over every window ending now |
| LimitsMemory.OnlyBusyStay | apps/ssh-terminator/src/limits.ts:49-57 | the memory bound pruning is for: after any run, a call that finds more than 4,096 addresses leaves, its own aside, only those with a live connection or let in during the last minute |
| LimitsObject.ConnectionLimits.Prune | apps/ssh-terminator/src/limits.ts:52-57 | the loop, in any order, refills every bucket and drops exactly the idle ones |
| LimitsObject.ConnectionLimits.LookUp | apps/ssh-terminator/src/limits.ts:63-69 | prunes a large map, adds a missing address with a full bucket, and refills |
| LimitsObject.ConnectionLimits.Admit | apps/ssh-terminator/src/limits.ts:60-84 | takes one token and one place and gives a handle, or refuses and takes neither |
| LimitsObject.ConnectionLimits.Release | apps/ssh-terminator/src/limits.ts:76-82 | gives the place back the first time only |
| CardLinks.CardLinksOf | apps/channel-adapter/src/mirror.ts:128-149 | the loop computes the card rows |
| CardLinks.CardsRight | apps/channel-adapter/src/mirror.ts:124-149 | every row is for a catalog provider and shows its first attach link, or with none its first link; one row a provider in order of first mention, at most ten; a catalog provider has none only if ten others were mentioned first |
| LeadIn.DropDanglingLeadIn | apps/channel-adapter/src/mirror.ts:304-382 | the bounded backwards scans compute the lead-in function |
| LeadIn.FindClause | apps/channel-adapter/src/mirror.ts:315-349 | the loop finds where the clause before the colon starts |
| LeadIn.DropsOneLine | apps/channel-adapter/src/mirror.ts:290-382 | what stays is a prefix; what goes is, white space around it aside, part of one line, ending in a colon and closing emphasis |
| LeadInMeaning.DropsExactly | apps/channel-adapter/src/mirror.ts:290-382 | the text loses its last clause if and only if that ends in a colon, at most three emphasis marks aside, begins within 240 characters at its line or after a sentence that no abbreviation or list marker ends, is no list item, has at most 200 characters, contains what it closes, and its last part points at the link |
| LeadInMeaning.PointerLineGoes | apps/channel-adapter/src/mirror.ts:304-382 | so a whole line that is one such clause goes with the white space before it |
| LinkLifting.LineOf | apps/channel-adapter/src/mirror.ts:219-243 | the three scans compute the lifted line |
| LinkLifting.LiftsWholeLine | apps/channel-adapter/src/mirror.ts:209-243 | helper for the row below: a lifted line holds the link, markup ahead of it and white space after |
| LinkLifting.AloneIsLifted | apps/channel-adapter/src/mirror.ts:209-243 | and a link that has its line to itself, its head within reach, is lifted with all of that line |
| LinkBreaks.LiftedExactly | apps/channel-adapter/src/mirror.ts:219-243 | and exactly so: a line is lifted if and only if nothing but markup, of at most 41 characters, is ahead of the link and nothing but blanks behind it; the text goes on after the last of the blank lines that follow |
| LinkLifting.ProseWithoutCardedLinks | apps/channel-adapter/src/mirror.ts:154-199 | the loop over the cursor and the owed break computes the spliced prose |
| LinkLifting.LiftOne | apps/channel-adapter/src/mirror.ts:171-196 | one carded match advances prose, owed break and cursor as the splice step says |
| LinkLifting.ProseIsTheRest | apps/channel-adapter/src/mirror.ts:151-199 | for any matches within the answer, nested labels included, the prose is, line breaks put in aside, a subsequence of the answer; with the URLs in order and disjoint it has no character of a carded link's URL; it has no white space at its ends, and otherwise a character is left out if and only if it is in a carded link's span, on the line it had to itself, or in the lead-in before that line, where the splice stood when it came to that link |
| LinkLifting.NeverStacksBreaks | apps/channel-adapter/src/mirror.ts:161-169 | breaks put in stand only between kept text and never more than two together |
| LinkBreaks.BreaksAreDue | apps/channel-adapter/src/mirror.ts:161-196 | between two kept neighbours there is a break if and only if a line was lifted between them, and two if and only if a blank line stood in what was dropped before or after one of those lines |
| LinkLifting.NothingCardedTrims | apps/channel-adapter/src/mirror.ts:154-199 | an answer with no carded link is only trimmed |
| Text.TrimIsSlice | apps/channel-adapter/src/mirror.ts:199 | trimming takes a slice and drops white space only |

## Left out

- HTTP, WebSocket, Docker, Slack, database and filesystem calls: only the state they read or change is modelled, their outcomes being environment steps.
- The bodies of starts and stops, provisioning, capability advertisement, orphan reaping, shutdown, drain and copy retirement.
- `KeyedChains.settled`, `ReportChain.drained` and `PortHub.setAllowed` / `activeCount`: they only wait on, send or read what is modelled.
- The approvals machine and the mirror's posting order, which rest on code that is not part of this model.
- Message and stretch objects shared by reference: `AnswerTracking.AnswerTracker` updates its own fields in place but keeps messages and stretches as values, so the aliasing of one message object between scans is not captured.
- Queued slots, buffered turns, runs and address entries are values in a class's map or sequence rather than heap objects; a slot is named by the index of its task.
- Strings are sequences of `char`, one for each UTF-16 code unit; `char` has no lone surrogates, which `JSON.stringify` writes in six characters, as many as the bounds in `EventSizes` allow any character. Ids are strings or numbers.
- EventSizes.ClampedWithin: strings are taken to be shorter than 2^53 and numbers to be safe integers, the limits of the source's own language.
- Regular expressions, SHA-256, the provider catalog and randomness are parameters, and so is the serialized length of an event outside `EventSizes`; nothing is assumed of them beyond a stated precondition. Provider matching by regular expression (`findConnectLinkMatches`) is not modelled: matches are inputs.
- Backoff and timer durations: a timer that fires, or a backoff that runs out, is a step. Real time appears only in the limiter and the stale-run sweep.
- Limits.RateBound: tokens are real numbers, so floating-point rounding is not modelled.
- Base64.DecodeEncode: `Decode` stops at the first character outside the alphabet, which is what decoding gives on the texts the wire schema lets through; what Node makes of other texts is not modelled.
- PortStream.SentIsWritten: frames carry raw bytes; their base64 text is the encoding proved in `Base64`.
- PortHub.RunKeeps: whether data cuts its stream is any choice at each frame (`Data(cut)`), which covers what `PortStream` decides but does not compose the two. The abort frames a destroyed stream sends to the guest, and the re-entrant destroy when a send fails half-way through a write, are not modelled; stream ids are taken to be fresh.
- AnswerMeaning.AnswerIsSimple: past the first event that crosses a tool call or outgrows the guard, which `AnswerAgreement` decides, agreement is not followed further. Claims are not in this definition; `AnswerClaims` takes claimed replies out of it, claims between two events step by step (`AnswerClaims.StepParas`).
- Lifecycle.NewestPayloadWins: payload hashes stand for payloads, as they do in the absorb rule.
- Lifecycle.OneStartEach: a stop's boot-free work and its report are one stage, since nothing modelled changes between them.
- FileParts.OneFateEach: `file.result` frames are recorded per run rather than in one outgoing sequence, and whether the sandbox's channel took them is not modelled.
- ReportChain.AtMostOnce: that the network and the control plane behave as `ControlPlane.Truthful` says, in terms of what left the process and what the server applied, is a hypothesis made of each request; the verdict's soundness is derived from it.
