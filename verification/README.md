# Spiderfire: readable streams, event loop queues and other stateful cores

A Dafny model of the parts of the Spiderfire JavaScript runtime whose correctness rests on state kept
across calls, with proofs about all their runs. `dafny verify dfyconfig.toml` checks the project.

## What is modelled

**Readable streams** (Streams Standard, sections 4.2 to 4.9). A stream with a byte controller is a
total step machine (`ByteStream`): a step returns, panics where the program would fail an `unwrap` or
underflow a subtraction, or hangs where its loop would not exit. Scripts may call anything in any order,
and promise reactions fire as separate steps. The classes of `ReadableObjects` and `ByteController` are
the objects as they run, with their deques, loops and in-place updates; each method is proved equal to
the machine's step in every state, panics and hangs included, and the machine carries the theorems:

- `ByteLifecycle`, `PullProtocol` and `ByteRanks`: what every run keeps, whatever is called.
- `ByteOutcomes`: for every step from every reachable state, exactly when it panics and when it hangs.
- `ByteOrder` and `ByteFits`: exactly when reads settle in the order issued, and when what a read gets
  fits what it asked for.
- `ByteDelivery`, `ByteSteps`, `ByteAnswers`: conservation of bytes and lock-step of the queues. They
  hold of *regular* runs. `ByteDelivery.Regular` is decided from the state before each call: an answer
  goes to a BYOB read of the present reader, an enqueue does not meet a partly filled detached
  descriptor, and a read whose minimum is its whole view is not made while more than that is queued.
- `ByteExact`: after a regular run, exactly when a chunk, an answer and the answer to a closed stream keep
  the bytes exact. For answers this is the condition of a regular one. For chunks it is a little wider: a
  detached descriptor that is wholly filled keeps the bytes exact, but can put auto-allocated descriptors
  out of step with their reads. A read never loses bytes; the condition on it is exactly that no bytes stay
  queued behind a waiting read, and where it fails the next accepted chunk hangs.
- `PullInto` and `ByteAmounts`: how much a read is given, which is the largest whole number of its elements
  within reach, and exactly when the processing loop exits.
- `BytePulls` and `ByteEffects`: exactly when the source is pulled, and what each operation brings about for
  the reads that wait, for a new one, and for the state.
- `ByteRuns` and `ByteTermination`: the theorems over whole runs. A run panics, hangs or loses the order of
  its reads if and only if it comes to a call that meets the condition for it.
- `ByteWitnesses`: concrete runs that reach each failing side: bytes too many, bytes lost, a read
  forgotten, one that overtakes another, one that gets another's view, a loop that never exits, an
  `unwrap` that fails in `respond` and in `enqueue`.

`DefaultStream`, `DefaultEffects` and `DefaultControllers` do the same for default controllers, with chunks
of any type. `TeeStream` composes three such machines (the original and two branches, whose pulls read from
the original) under every interleaving, and `TeeEffects` says how the end of the original reaches the
branches and that each pull reads once; `TeeState` is the shared state as an object.

**Macrotasks.** `Macrotasks` runs the queue with callbacks that enqueue, clear, abort and let time pass
while they run, and states what every log of starts looks like. `MacrotaskSchedule` reads a plan off the log
and shows that the queue follows it: a task may start exactly when its plan says so. `MacrotaskQueues` is the
queue object.

**Context rooting.** `ContextRoots`: nine typed arenas and an order log, unwound last in, first out.

**Paths and stack traces.** `NormalPath` gives paths a meaning (walking a tree) and proves the normal
form canonical for it; `StackTrace` proves the parser and the printer inverse, exactly where they are.

**URL search parameters.** `Utf8` and `FormEncoding` give the form-urlencoded serialiser and parser in
full (URL Standard, section 5), `QueryText` the encoding of an assigned `search` (section 4.4),
`PairLists` and `PairSort` what the list operations do, and `SearchParams` the two linked objects under
any interleaving of their operations.

**Fetch redirects.** `Redirects` is the recursion of the four fetch functions against an arbitrary
network, URL parser and local content, with the texts that come from the network as bytes: where the
program unwraps one that is not UTF-8 the fetch panics. `RedirectHops` says of every request that it follows
from the one before and the reply to it, and what is answered in the end. `FetchClient` is the same with the
request changed in place.

## Where the code is followed against its documentation or a Standard

- The fill step is ready only when the aligned bytes *exceed* the minimum; the Streams Standard has
  greater or equal. A read whose minimum is its whole view can make the loop run for ever
  (`ByteWitnesses.FullMinimumCanHang`, `PullInto.ExitsForEveryQueueIff`, `ByteExact.OverfullReadHangs`).
- A BYOB read's descriptor is `len * element` bytes long. Nothing is claimed of the buffer behind it.
- `close` closes at once, with chunks still queued; a drain before closing is not claimed.
- A chunk that answers a waiting read of a default controller does not make it look at whether a pull is due,
  where the Streams Standard does (`DefaultEffects.PulledIff`).
- A default controller's `queue_size` is not reduced when a chunk is popped: it is the total of all that
  entered the queue since its last reset (`DefaultStream.QueueSizeIsExact`).
- A descriptor whose reader was released goes back on the queue with its whole memory, unfilled bytes
  included. Answered under a new BYOB reader it takes the first request of that reader, whose read gets its
  view (`ByteFits.AnotherReadsView`). One descriptor is then left over, so that this answer or a later
  chunk can fail an `unwrap` (`ByteWitnesses.ReleasedReadCanPanic` and `EnqueueCanPanic`; exactly when is
  `ByteOutcomes.StepOutcome`). Answered under a default reader it is queued past the reads that wait, and
  the next read overtakes them (`ByteWitnesses.ReadCanOvertake`; exactly when is `ByteRuns.OrderIff`).
- A BYOB read on a closed stream with descriptors still pending adds a descriptor and drops its request
  (`ByteExact.AcceptedReadIsTrackedIff`).
- The tee does not forward an error of the original to its branches, where the Streams Standard does
  (`TeeStream.OrphansWaitForever`).
- Assigning `search` does not take a leading question mark away, where the URL Standard does
  (`QueryText.AssigningSearchToItself`).
- Subtracting a later instant saturates at zero, so no task is more overdue than another: `find_next`
  takes the first due task in the map's order, which is arbitrary.
- `main_fetch` never taints a response as opaque, so a no-cors response is filtered as a basic one; the
  branches for opaque responses are dead. No present kind of body is a stream; `Streamed` stands for
  the case the code provides for.

## Model

| member | source | states |
|---|---|---|
| `ByteRuns.RegularRun` | runtime/src/globals/streams/readable/controller.rs:554-746 | On every run whose calls meet `Regular`: no `unwrap` fails; the bytes delivered are always a prefix of the bytes the source produced; while the stream is readable, produced = delivered, then the front descriptor's filled bytes, then the flattened queue; reads settle in the order issued; every view is a whole number of elements, at most the view's length and, while readable, at least its minimum |
| `ByteRuns.EveryRunOutcome` | runtime/src/globals/streams/readable/controller.rs:554-746 | Every run of a new stream panics, and hangs, if and only if it comes to a call that meets the condition for it |
| `ByteTermination.RegularRunReturns` | runtime/src/globals/streams/readable/controller.rs:636-746 | On every regular run, with releases and with auto-allocation, every call returns if every BYOB read's minimum is below its view: no `unwrap` fails and no loop hangs |
| `ByteTermination.PlainRun` | runtime/src/globals/streams/readable/controller.rs:636-746 | The same told from the calls alone, for a stream without auto-allocation: if no reader is released and every BYOB read's minimum is below its view, the run is regular and every call returns |
| `ByteOutcomes.StepOutcome` | runtime/src/globals/streams/readable/controller.rs:554-746 | In every state that any run reaches, and for every operation: the exact condition, told from the state before the call, on which it panics, and the one on which it hangs |
| `ByteRuns.RunOutcome` | runtime/src/globals/streams/readable/controller.rs:554-746 | The same from any reachable state, by induction over the run |
| `ByteRanks.StepKeepsRanked` | runtime/src/globals/streams/readable/controller.rs:615-746 | What these conditions rest on, kept by every step of every run: behind a detached descriptor all belong to the present reader and are unsatisfied, and a BYOB reader has no more requests than descriptors |
| `ByteRuns.EveryRunKeepsRanked` | runtime/src/globals/streams/readable/controller.rs:615-746 | The same over whole runs, whatever the calls |
| `ByteRanks.DetachedGoesFirst` | runtime/src/globals/streams/readable/controller.rs:696-704 | A detached read answered under a BYOB reader takes the first request, unless it has no room above its minimum, where the loop never exits, or no request waits, where an `unwrap` fails |
| `ByteRuns.OrderIff` | runtime/src/globals/streams/readable/controller.rs:162-213 | From any reachable state, any run that returns ends with its reads settled in the order issued if and only if they were so far and none of its default reads found bytes queued while others waited |
| `ByteOrder.StepKeepsOrderIff` | runtime/src/globals/streams/readable/controller.rs:162-213 | The same for one step, told from the state before it |
| `ByteRuns.OvertakingNeedsAnAnswer` | runtime/src/globals/streams/readable/controller.rs:692-708 | On any run, one read overtakes another only after an answer to a detached read was made while default reads waited |
| `ByteOrder.StepLeavesNone` | runtime/src/globals/streams/readable/controller.rs:898-922 | No default read waits while bytes are queued: every step keeps this but that answer |
| `ByteRuns.FitsUnlessAnother` | runtime/src/globals/streams/readable/controller.rs:58-105 | On any run without answers to detached reads while reads of a new BYOB reader wait, every view handed out fits the read it settles, and waiting reads are paired with descriptors of their own |
| `ByteFits.StepFits` | runtime/src/globals/streams/readable/controller.rs:58-105 | The same for one step, from any reachable state that fits |
| `ByteFits.AnotherReadsView` | runtime/src/globals/streams/readable/controller.rs:692-708 | Such an answer hands the detached read's whole memory to the first read that waits; it fits if and only if its length is one that read can take |
| `ByteEffects.DefaultReadGets` | runtime/src/globals/streams/readable/controller.rs:162-213 | A default read takes the front entry of the queue as a view of its own, else waits, with a descriptor if buffers are allocated; it ends on a closed stream and fails with the stored error on an errored one |
| `ByteEffects.ByobReadGets` | runtime/src/globals/streams/readable/reader.rs:340-379 | A BYOB read with no bytes queued, or behind others, waits with a view of its own; it ends with an empty view on a closed stream, fails with the stored error on an errored one, and is refused for arguments outside its view |
| `ByteEffects.AnswerSettles` | runtime/src/globals/streams/readable/controller.rs:688-729 | An answer below the read's minimum leaves it waiting with the bytes; any other settles it first, with the whole elements of what it holds, and what is left over is queued for the reads that wait to take as much of as they can |
| `ByteEffects.ClosedAnswerEnds` | runtime/src/globals/streams/readable/controller.rs:731-741 | The answer that completes a closed stream ends each waiting BYOB read with the whole elements its own descriptor holds |
| `ByteEffects.OtherAnswersSettleNothing` | runtime/src/globals/streams/readable/controller.rs:692-728 | Under any other reader an answer settles no read; a detached read's memory goes to the end of the queue |
| `ByteEffects.RefusedAnswer` | runtime/src/globals/streams/readable/controller.rs:657-686 | Exactly which answers are refused; a refused one uses up the request and changes nothing else |
| `ByteEffects.ViewIsAnswer` | runtime/src/globals/streams/readable/controller.rs:748-791 | A new view is taken exactly if it covers all of a descriptor that holds nothing; it is then an answer of all its bytes |
| `ByteEffects.EnqueueGives` | runtime/src/globals/streams/readable/controller.rs:898-912 | With nothing queued a chunk goes as a whole to the oldest waiting default read |
| `ByteEffects.EnqueueAccepts` | runtime/src/globals/streams/readable/controller.rs:847-862 | Exactly which chunks are refused; under no reader a chunk goes to the end of the queue |
| `ByteEffects.CloseEndsReads` | runtime/src/globals/streams/readable/controller.rs:825-841 | `close` ends every read of a default reader, oldest first; an unaligned front errors the stream and fails every read; it is refused unless the stream is open |
| `ByteEffects.CancelDrops` | runtime/src/globals/streams/readable/mod.rs:168-191 | Cancelling, refused on a locked stream, closes an open one and drops what is queued and pending |
| `ByteEffects.ReleaseFailsReads` | runtime/src/globals/streams/readable/controller.rs:218-229 | A release fails every waiting read, oldest first, and keeps only the front descriptor, detached, with what it holds |
| `ByteEffects.ErrorFailsReads` | runtime/src/globals/streams/readable/controller.rs:400-416 | An error is kept, fails every waiting read with its reason, and empties both queues; a later one changes nothing |
| `ByteEffects.OthersSettleNothing` | runtime/src/globals/streams/readable/controller.rs:799-823 | Locks go to unlocked streams only; a request is made once for the front descriptor; promises that are fulfilled settle no read |
| `ByteRuns.EveryFailureIsTold` | runtime/src/globals/streams/readable/mod.rs:341-365 | On every run a read that fails does so for the reason that its stream was errored with, or because its reader was released |
| `ByteOutcomes.RespondOutcome` | runtime/src/globals/streams/readable/controller.rs:657-746 | `respond` panics if and only if it would settle more reads of a BYOB reader than there are requests: a detached read with room above its minimum, or a read it satisfies, takes the first request, and what is queued again (the detached read's bytes, or the tail) overruns the rest. It hangs if and only if a detached read has no such room, or what is queued again stalls at a later read |
| `ByteOutcomes.ViewOutcome` | runtime/src/globals/streams/readable/controller.rs:748-791 | The same exact conditions for `respondWithNewView`, in every reachable state |
| `ByteOutcomes.EnqueueOutcome` | runtime/src/globals/streams/readable/controller.rs:847-933 | `enqueue` panics if and only if the bytes then queued make more reads of a BYOB reader ready than there are requests, and hangs if and only if they stall at a read before that; in every reachable state |
| `ByteOutcomes.ProcessOutcome` | runtime/src/globals/streams/readable/controller.rs:636-655 | However many descriptors and requests there are, the loop hangs if and only if the bytes stall at a read, and fails an `unwrap` if and only if they overrun the requests |
| `ByteOutcomes.RoomNeverStalls` | runtime/src/globals/streams/readable/controller.rs:554-603 | Reads with room above their minimum never stall, whatever is queued |
| `ByteOutcomes.EnoughRequests` | runtime/src/globals/streams/readable/controller.rs:636-655 | With a request for every read no number of bytes overruns them |
| `ByteTermination.RegularRunReturnsFrom` | runtime/src/globals/streams/readable/controller.rs:636-655 | The same from any sound state whose pending BYOB reads leave room above their minimum |
| `ByteRuns.EveryRun` | runtime/src/globals/streams/readable/controller.rs:615-634 | On every run at all, irregular ones included: `queue_size` is the number of queued bytes and no queue entry is empty; no read settles twice, and reads settle in the order issued if and only if none overtook another, so always on runs without answers to detached reads; views fit their reads unless an answer went to another read; an error is stored iff the stream is errored; `close_requested` implies not readable; a usable BYOB request implies a pending descriptor; error empties all queues, close empties a default reader's; the source is pulled one call at a time and only when started and readable |
| `ByteRuns.QueuesInStep` | runtime/src/globals/streams/readable/reader.rs:369-405 | On regular runs a BYOB reader's waiting requests are paired one to one with the descriptors of its reads while readable, and no descriptor is missing once closed; no byte is queued while a descriptor waits |
| `ByteRuns.StepKeepsSound` | runtime/src/globals/streams/readable/controller.rs:657-746 | One regular step from a sound state cannot fail an `unwrap`, and ends sound if it returns |
| `ByteRuns.EveryRunKeepsBase` | runtime/src/globals/streams/readable/controller.rs:605-634 | The lifecycle, accounting and protocol invariant is kept by every step of every run, whatever the calls |
| `ByteRuns.RegularRunKeepsSound` | runtime/src/globals/streams/readable/controller.rs:636-746 | The delivery invariant is kept by every regular run from any sound state |
| `ByteRuns.ClosedAndErroredAreFinal` | runtime/src/globals/streams/readable/mod.rs:322-365 | Closed and Errored are absorbing for every operation; the stored error stays, nothing more is accepted from the source, and it is not called again |
| `ByteRuns.FinalForever` | runtime/src/globals/streams/readable/mod.rs:322-365 | The same over the rest of any run |
| `ByteWitnesses.FullMinimumCanHang` | runtime/src/globals/streams/readable/controller.rs:560-576 | Counterexample to termination: a BYOB read whose minimum is its whole view and a chunk one byte longer make the loop run for ever (the comparison is strict where the Streams Standard has greater-or-equal) |
| `ByteWitnesses.ReachReleased` | runtime/src/globals/streams/readable/reader.rs:183-213 | A run that leads to a detached four-byte descriptor whose BYOB request is still usable |
| `ByteWitnesses.ReleasedReadCanPanic` | runtime/src/globals/streams/readable/controller.rs:696-704 | Counterexample to panic freedom after a release: answering that read under a new BYOB reader puts its whole memory on the queue, processes it, and fails the `unwrap` of the empty request queue |
| `ByteWitnesses.EnqueueCanPanic` | runtime/src/globals/streams/readable/controller.rs:884-922 | A run on which `enqueue` fails an `unwrap`: the answer to a detached read takes the request of the first of two reads behind it, and a chunk then completes both |
| `ByteWitnesses.ReadCanOvertake` | runtime/src/globals/streams/readable/controller.rs:162-180 | A run on which read 2 is settled while read 1 waits: the memory of a detached read is queued past it |
| `ByteWitnesses.ReadCanGetAnothersView` | runtime/src/globals/streams/readable/controller.rs:692-708 | A run on which a read of one byte is given the four bytes of the read before it |
| `ByteWitnesses.EnqueueCanOvercopy` | runtime/src/globals/streams/readable/controller.rs:864-882 | A run on which an accepted chunk leaves five bytes accounted for where two were produced |
| `ByteWitnesses.AnswerCanOvercopy` | runtime/src/globals/streams/readable/controller.rs:696-704 | A run on which an answer leaves five bytes accounted for where one was produced |
| `ByteWitnesses.ClosedAnswerCanLose` | runtime/src/globals/streams/readable/controller.rs:738-741 | A run on which the answer that completes a closed stream throws the one byte produced away |
| `ByteWitnesses.ReadCanBeForgotten` | runtime/src/globals/streams/readable/reader.rs:369-378 | A run on which an accepted BYOB read is neither waiting nor settled |
| `ByteExact.EnqueueConservesIff` | runtime/src/globals/streams/readable/controller.rs:864-882 | An accepted chunk keeps the bytes exact if and only if the front descriptor is not both detached and partly filled |
| `ByteExact.AnswerConservesIff` | runtime/src/globals/streams/readable/controller.rs:692-728 | When an accepted answer on a readable stream returns, which `RespondOutcome` decides beforehand, the bytes stay exact if and only if the front descriptor belongs to a BYOB read of the present reader |
| `ByteExact.ClosedAnswerConservesIff` | runtime/src/globals/streams/readable/controller.rs:731-741 | The answer that completes a closed stream keeps the bytes exact if and only if a BYOB reader is there or the front descriptor holds nothing |
| `ByteExact.ServingAccounts` | runtime/src/globals/streams/readable/controller.rs:889-913 | A chunk that arrives while default reads wait goes, after what is queued, to the waiting reads in order: nothing is lost or overtaken |
| `ByteExact.AcceptedReadIsTrackedIff` | runtime/src/globals/streams/readable/reader.rs:369-378 | An accepted BYOB read is settled or waiting if and only if it was not made on a closed stream with descriptors still pending; in that case its descriptor is added and its request dropped |
| `ByteExact.ReadStarvesIff` | runtime/src/globals/streams/readable/reader.rs:380-405 | A BYOB read never loses a byte; it leaves bytes queued behind a waiting read if and only if its minimum is its whole view, nothing is pending and more is queued, which is exactly what a regular read excludes |
| `ByteExact.OverfullReadHangs` | runtime/src/globals/streams/readable/controller.rs:560-576 | After such a read the next chunk that is accepted hangs, whatever it is |
| `PullInto.FillArithmetic` | runtime/src/globals/streams/readable/controller.rs:554-570 | Given a well-shaped descriptor filled to less than minimum plus one element: the copy count does not underflow; ready means aligned, above the minimum and within the length; not ready keeps the bound and uses up the queue or the descriptor. How much is copied is `FillIsMaximal` |
| `PullInto.FillMovesPrefix` | runtime/src/globals/streams/readable/controller.rs:572-596 | Filling moves a prefix of the flattened queue behind the filled part and leaves the rest of it queued, with no empty entry; how long a prefix is `FillIsMaximal` |
| `PullInto.FillFacts` | runtime/src/globals/streams/readable/controller.rs:554-603 | Both together, for a pending descriptor: the view of a ready descriptor is all it holds |
| `PullInto.FillIsMaximal` | runtime/src/globals/streams/readable/controller.rs:554-570 | A descriptor is ready if and only if a whole number of elements above its minimum is within its memory and the bytes queued; then it ends with the largest such number, and otherwise with all that it has memory for |
| `ByteAmounts.LoopTakesAll` | runtime/src/globals/streams/readable/controller.rs:636-655 | Each read that the processing loop settles gets the largest whole number of elements that its view and the bytes left by those before it allow, above its minimum; and the loop settles as many reads as can be |
| `ByteAmounts.ChunkTakesAll` | runtime/src/globals/streams/readable/controller.rs:924-926 | The same for an accepted chunk under a BYOB reader, with what was queued before it |
| `ByteAmounts.ByobReadTakesAll` | runtime/src/globals/streams/readable/reader.rs:380-405 | A BYOB read made while bytes are queued is answered at once with the largest whole number of elements that the queue and its view allow, if that is above its minimum; otherwise it waits with all that its view can take |
| `PullInto.ProcessDescribesLoop` | runtime/src/globals/streams/readable/controller.rs:636-655 | The recursive description of the loop says `Spins` if and only if the loop, run iteration by iteration, never stops: for any queue and any well-shaped descriptors |
| `PullInto.IterationDecides` | runtime/src/globals/streams/readable/controller.rs:641-652 | One pass of the loop fails an `unwrap`, or is stuck for good, or leaves the outcome as it was to be and lowers (pending descriptors, queued bytes) |
| `PullInto.StuckLoop` | runtime/src/globals/streams/readable/controller.rs:636-655 | If a fill leaves a descriptor unready with bytes still queued, the loop makes no further progress and never exits |
| `PullInto.ExitsWithRoom` | runtime/src/globals/streams/readable/controller.rs:636-655 | If every pending read left room for an element above its minimum, the loop exits for any queue |
| `PullInto.OverfullQueueHangs` | runtime/src/globals/streams/readable/controller.rs:636-655 | If one did not, any queue larger than all the room in the descriptors makes it hang |
| `PullInto.ExitsForEveryQueueIff` | runtime/src/globals/streams/readable/controller.rs:636-655 | Hence `process_descriptors` exits for every queue if and only if every pending minimum is below its length |
| `Chunks.DropFirstFlattens` | runtime/src/globals/streams/readable/controller.rs:590-598 | Consuming from the chunk deque, entry by entry and within an entry, is dropping a prefix of the byte string it stands for |
| `ByteDelivery.ProcessConserves` | runtime/src/globals/streams/readable/controller.rs:636-655 | Whenever the loop exits, filled and queued bytes before = bytes delivered, then filled, then queued bytes after, in order |
| `ByteDelivery.ProcessKeepsPace` | runtime/src/globals/streams/readable/controller.rs:636-655 | The loop settles the first reads with views that fit what they asked for, drops as many descriptors as requests, and leaves no read waiting beside queued bytes; with paired queues its `unwrap`s cannot fail |
| `ByteDelivery.ReadyCommitsAll` | runtime/src/globals/streams/readable/controller.rs:43-83 | A ready descriptor is settled with all the bytes it holds: truncating to whole elements cuts off nothing |
| `ByteLifecycle.StepKeepsBase` | runtime/src/globals/streams/readable/controller.rs:439-448 | Each operation of the byte machine keeps the accounting, lifecycle, settling-once and pull-protocol invariant |
| `ByteLifecycle.ProcessSettlesInOrder` | runtime/src/globals/streams/readable/controller.rs:62-83 | The loop settles requests from the head of the queue, in order, each once |
| `ByteLifecycle.FreshDescriptor` | runtime/src/globals/streams/readable/reader.rs:357-368 | The descriptor of a BYOB read is well-shaped; it has room above its minimum if and only if the minimum asked for is below the view's length |
| `ByteSteps.EnqueueKeeps` | runtime/src/globals/streams/readable/controller.rs:847-933 | A regular `enqueue` fails no `unwrap` and keeps conservation, lock-step and order |
| `ByteSteps.ReadByobKeeps` | runtime/src/globals/streams/readable/reader.rs:335-416 | So does a regular BYOB read, also when the queue answers it at once |
| `ByteSteps.ReadDefaultKeeps` | runtime/src/globals/streams/readable/controller.rs:132-216 | So does a read through a default reader, with auto-allocated descriptors |
| `ByteSteps.CloseKeeps` | runtime/src/globals/streams/readable/controller.rs:825-841 | So does `close`; a closed stream's front descriptor is aligned, since an unaligned one errors the stream |
| `ByteSteps.ReleaseKeeps` | runtime/src/globals/streams/readable/controller.rs:218-229 | So does releasing the reader: the front descriptor is kept, detached, and nothing delivered changes |
| `ByteSteps.CancelKeeps` | runtime/src/globals/streams/readable/mod.rs:168-191 | So does `cancel`, after which delivered stays a prefix of produced |
| `ByteSteps.ProcessKeeps` | runtime/src/globals/streams/readable/controller.rs:636-655 | So does the processing loop, when it exits, for a BYOB reader with paired queues |
| `ByteAnswers.TailSplit` | runtime/src/globals/streams/readable/controller.rs:709-725 | When a satisfied descriptor is answered, the committed view and the tail put back on the queue make up the filled bytes; the view is aligned and at least the minimum |
| `ByteAnswers.RespondReadableKeeps` | runtime/src/globals/streams/readable/controller.rs:688-729 | An answer to a BYOB read of the present reader keeps conservation, lock-step and order, and fails no `unwrap` |
| `ByteAnswers.RespondClosedKeeps` | runtime/src/globals/streams/readable/controller.rs:731-741 | On a closed stream every waiting read is settled with what was filled, in order, and the drain never runs out of descriptors |
| `ByteAnswers.DrainDelivers` | runtime/src/globals/streams/readable/controller.rs:731-737 | The closed drain delivers the front descriptor's bytes and nothing twice |
| `ByteAnswers.AnswerKeeps` | runtime/src/globals/streams/readable/controller.rs:968-992 | `respond` on any BYOB request keeps the delivery invariant when the answer is regular |
| `ByteAnswers.AnswerWithViewKeeps` | runtime/src/globals/streams/readable/controller.rs:748-791 | So does `respond_with_new_view` |
| `PullProtocol.EvaluateFollowsProtocol` | runtime/src/globals/streams/readable/controller.rs:316-340 | `pull` is called only when started, readable and idle; a further want while a pull is outstanding only sets `pull_again`, which implies `pulling` |
| `PullProtocol.FulfilFollowsProtocol` | runtime/src/globals/streams/readable/controller.rs:341-356 | When a pull fulfils, the need is evaluated again exactly if one was wanted meanwhile, and then once |
| `PullProtocol.RejectFollowsProtocol` | runtime/src/globals/streams/readable/controller.rs:357-364 | After a rejected pull the source is not called and `pulling` stays set |
| `BytePulls.PulledIff` | runtime/src/globals/streams/readable/controller.rs:314-340 | From every reachable state and for every operation: the source is called once if and only if the operation evaluates the need, none is under way, and at its end the stream is open, started and not closing, and a read waits or fewer bytes are queued than the mark; with one under way another is remembered. In no other case is it called |
| `BytePulls.ServingPulls` | runtime/src/globals/streams/readable/controller.rs:898-922 | The one case left out there, a chunk for default reads that wait although bytes are queued: the source is called once if a pull is due at the end, or was once the oldest read had been served |
| `DefaultEffects.PulledIff` | runtime/src/globals/streams/readable/controller.rs:314-340 | The same for a stream with a default controller, for every operation |
| `StreamCore.BulkSettlingKeepsTrail` | runtime/src/globals/streams/readable/mod.rs:322-365 | Closing, erroring and releasing settle whole request queues without settling any read twice or out of order; error and release leave none waiting, close none under a default reader |
| `StreamCore.SettleNow` | runtime/src/globals/streams/readable/reader.rs:248-262 | A read answered at once settles once; it keeps the order if and only if no read was waiting |
| `StreamCore.SettleHeadKeepsTrail` | runtime/src/globals/streams/readable/controller.rs:62-83 | Settling the request at the head of the queue keeps the order of settling |
| `ByteController.ByteStreamController.constructor` | runtime/src/globals/streams/readable/controller.rs:536-552 | A new controller is the machine's initial state, and valid |
| `ByteController.ByteStreamController.TakeFromFront` | runtime/src/globals/streams/readable/controller.rs:577-598 | One pass of the copy loop takes a non-empty prefix of the flattened queue, and `queue_size` falls by its length |
| `ByteController.ByteStreamController.FillPullIntoDescriptor` | runtime/src/globals/streams/readable/controller.rs:554-603 | The copy loop over deque entries ends with the descriptor, the queue, the count and the answer that the one-step description gives: a ready descriptor with the largest whole number of elements within reach, any other with all there is |
| `ByteController.ByteStreamController.EnqueueClonedChunk` | runtime/src/globals/streams/readable/controller.rs:615-634 | Puts the bytes at the end of the queue and counts them |
| `ByteController.ByteStreamController.PushEntry` | runtime/src/globals/streams/readable/controller.rs:914-929 | Puts the chunk's window at the end of the queue and counts it |
| `ByteController.ByteStreamController.InvalidateByobRequest` | runtime/src/globals/streams/readable/controller.rs:605-613 | Takes the controller from the cached request, so the script's copy of it can do nothing more |
| `ByteController.ByteStreamController.ResetQueue` | runtime/src/globals/streams/readable/controller.rs:945-950 | Empties both queues, sets the count to zero and invalidates the BYOB request |
| `ByteController.ByteStreamController.ErrorInternal` | runtime/src/globals/streams/readable/controller.rs:400-408 | Errors a readable stream and empties its queues; leaves any other stream alone |
| `ByteController.ByteStreamController.Commit` | runtime/src/globals/streams/readable/controller.rs:62-83 | Settles the first waiting request with the descriptor's view |
| `ByteController.ByteStreamController.ProcessFront` | runtime/src/globals/streams/readable/controller.rs:641-652 | The body of the processing loop is one iteration of the described loop; it tells when the `unwrap` fails and when nothing can change any more |
| `ByteController.ByteStreamController.ProcessNext` | runtime/src/globals/streams/readable/controller.rs:641-652 | One pass brings the described outcome nearer, or ends as it says |
| `ByteController.ByteStreamController.ProcessDescriptors` | runtime/src/globals/streams/readable/controller.rs:636-655 | The `while` loop ends as described in every state: in the described state, in a failed `unwrap`, or where it never exits |
| `ByteController.ByteStreamController.Close` | runtime/src/globals/streams/readable/controller.rs:825-841 | Refused unless readable and not yet requested; an unaligned front descriptor errors the stream; otherwise the stream is closed at once |
| `ByteController.ByteStreamController.GetByobRequest` | runtime/src/globals/streams/readable/controller.rs:799-823 | Creates a request for the front descriptor unless one is cached, and returns it |
| `ByteController.ByteStreamController.ServeRequests` | runtime/src/globals/streams/readable/controller.rs:889-908 | Waiting default reads take queued chunks, then the new chunk; what they leave is queued |
| `ByteController.ByteStreamController.ShiftDetached` | runtime/src/globals/streams/readable/controller.rs:864-887 | A detached front descriptor is dropped and what it held is queued again |
| `ByteController.ByteStreamController.Enqueue` | runtime/src/globals/streams/readable/controller.rs:847-933 | The whole new state of the machine's `enqueue`, with its refusals, or that it hangs, in every state |
| `ByteController.ByteStreamController.RespondTo` | runtime/src/globals/streams/readable/controller.rs:968-992 | A request without controller changes nothing; otherwise the machine's `respond` in every state: refusals, panics and hangs included |
| `ByteController.ByteStreamController.RespondToWithNewView` | runtime/src/globals/streams/readable/controller.rs:995-1004 | The same for `respondWithNewView`, with all its range checks |
| `ByteController.ByteStreamController.RespondInternally` | runtime/src/globals/streams/readable/controller.rs:657-746 | The controller's `respond` in all three states, with every refusal |
| `ByteController.ByteStreamController.RespondWhileReadable` | runtime/src/globals/streams/readable/controller.rs:688-729 | The answer to a detached, an unsatisfied and a satisfied descriptor |
| `ByteController.ByteStreamController.RespondAfterClose` | runtime/src/globals/streams/readable/controller.rs:731-741 | With a BYOB reader the drain, otherwise one pop; ends as described in every state |
| `ByteController.ByteStreamController.DrainPending` | runtime/src/globals/streams/readable/controller.rs:731-737 | The drain loop settles every waiting request with the next descriptor, or fails an `unwrap` exactly when there are too few |
| `ByteController.ByteStreamController.ReadThroughDefaultReader` | runtime/src/globals/streams/readable/reader.rs:248-262 | A default read in all three states, from the queue or waiting |
| `ByteController.ByteStreamController.ReadThroughByobReader` | runtime/src/globals/streams/readable/reader.rs:335-416 | A BYOB read with its argument checks, in all states |
| `ByteController.ByteStreamController.ReleaseLock` | runtime/src/globals/streams/readable/reader.rs:183-213 | Fails every waiting read in order, detaches the front descriptor and drops the others |
| `ByteController.ByteStreamController.Cancel` | runtime/src/globals/streams/readable/mod.rs:168-191 | Refused while locked; closes a readable stream and empties its queues |
| `ReadableObjects.ReadableStream.Close` | runtime/src/globals/streams/readable/mod.rs:322-343 | Ends every waiting read of a default reader in order; refused unless readable |
| `ReadableObjects.ReadableStream.Fail` | runtime/src/globals/streams/readable/mod.rs:345-365 | Stores the error and fails every waiting read in order; refused unless readable |
| `ReadableObjects.ReadableStream.FailRequests` | runtime/src/globals/streams/readable/reader.rs:202-210 | The popping loop fails every request, oldest first, and leaves none |
| `ReadableObjects.ReadableStream.GetReader` | runtime/src/globals/streams/readable/mod.rs:193-223 | Refused while locked; otherwise a new reader with no requests |
| `ReadableObjects.CommonController.PullIfNeeded` | runtime/src/globals/streams/readable/controller.rs:314-340 | Moves the protocol flags as the protocol description says, and calls the source once if and only if the stream is open, started and not closing, no pull is under way, and a read waits or the queue size is below the mark |
| `ReadableObjects.CommonController.StartFulfilled` | runtime/src/globals/streams/readable/controller.rs:297-302 | Marks the source started and evaluates the need to pull |
| `ReadableObjects.CommonController.PullFulfilled` | runtime/src/globals/streams/readable/controller.rs:346-356 | Clears `pulling` and evaluates once more if `pull_again` was set |
| `DefaultStream.FirstInFirstOut` | runtime/src/globals/streams/readable/controller.rs:454-501 | On every run, across releases and new readers: the k-th read answered with a chunk gets the k-th chunk accepted; while readable, accepted = answered ++ queued; chunks and reads never wait together; reads settle in order; none waits once the stream is closed or errored |
| `DefaultEffects.ReadGets` | runtime/src/globals/streams/readable/controller.rs:132-161 | A read takes the next accepted chunk that has not been handed out, else waits; it ends at once on a closed stream and fails with the stored error on an errored one |
| `DefaultEffects.EnqueueGives` | runtime/src/globals/streams/readable/controller.rs:458-501 | A chunk is refused unless the stream is open; it goes to the oldest waiting read, else to the queue with its size; without a valid size the stream errors |
| `DefaultEffects.CloseEndsReads` | runtime/src/globals/streams/readable/controller.rs:439-452 | `close` ends every waiting read, oldest first, with chunks left queued; it is refused unless the stream is open |
| `DefaultEffects.CancelDrops` | runtime/src/globals/streams/readable/mod.rs:168-191 | Cancelling, refused on a locked stream, closes an open one and drops its queue |
| `DefaultEffects.ErrorFailsReads` | runtime/src/globals/streams/readable/controller.rs:400-416 | An error is kept, fails every waiting read with its reason, and drops the queue; a later one changes nothing |
| `DefaultEffects.ReleaseFailsReads` | runtime/src/globals/streams/readable/reader.rs:183-213 | A release fails every waiting read, oldest first, and leaves the queue to the next reader |
| `DefaultEffects.EveryFailureIsTold` | runtime/src/globals/streams/readable/mod.rs:341-365 | On every run a read fails only for the reason that its stream was errored with, or a release |
| `DefaultStream.EveryDefaultRun` | runtime/src/globals/streams/readable/controller.rs:280-366 | On every run: one pull at a time, only when started and readable; an error is stored iff errored; `queue_size` is at least the sum of queued sizes |
| `DefaultStream.QueueSizeIsExact` | runtime/src/globals/streams/readable/controller.rs:134-138 | On every run `queue_size` is the total size of all chunks that entered the queue since its last reset, popped ones included, and the queue is the last of them |
| `DefaultStream.FinalStates` | runtime/src/globals/streams/readable/mod.rs:322-365 | Closed and Errored are absorbing: nothing more is accepted, served or pulled |
| `DefaultStream.FinalForever` | runtime/src/globals/streams/readable/mod.rs:322-365 | The same over the rest of any run |
| `DefaultStream.StepKeepsSound` | runtime/src/globals/streams/readable/controller.rs:132-161 | Every operation keeps the default stream's invariant |
| `DefaultControllers.DefaultController.Enqueue` | runtime/src/globals/streams/readable/controller.rs:458-501 | A waiting read gets the chunk; otherwise it is queued with its measured size, or the stream errors when `size` fails; refused unless readable and no close requested |
| `DefaultControllers.DefaultController.Read` | runtime/src/globals/streams/readable/reader.rs:248-262 | Pops the oldest chunk or waits, in all three states |
| `DefaultControllers.DefaultController.Pull` | runtime/src/globals/streams/readable/controller.rs:134-161 | The default arm of `Controller::pull`, which leaves `queue_size` as it is |
| `DefaultControllers.DefaultController.Close` | runtime/src/globals/streams/readable/controller.rs:439-448 | Closes at once; chunks still queued stay queued |
| `DefaultControllers.DefaultController.ErrorInternal` | runtime/src/globals/streams/readable/controller.rs:400-408 | Errors a readable stream and empties the queue |
| `DefaultControllers.DefaultController.ReleaseLock` | runtime/src/globals/streams/readable/reader.rs:183-213 | Fails every waiting read in order and unlocks the stream |
| `DefaultControllers.DefaultController.Cancel` | runtime/src/globals/streams/readable/mod.rs:168-191 | Refused while locked; closes a readable stream and empties the queue |
| `TeeStream.TeeDeliversTheSameChunks` | runtime/src/globals/streams/readable/source.rs:83-188 | Over every interleaving of the original's source, both branches' users and the deferred chunk steps: uncancelled branches are given the same chunks, namely all read from the original up to the one still deferred; a cancelled branch's are a prefix; at most one read of the original is outstanding; no branch is closed while a read chunk is undelivered |
| `TeeEffects.EndReachesBranches` | runtime/src/globals/streams/readable/source.rs:163-177 | Whenever the tee's read is settled by the original's end, every branch not cancelled is closed and no read waits on it |
| `TeeEffects.CloseReachesBranches` | runtime/src/globals/streams/readable/source.rs:163-177 | The source closes the original while the tee's read waits: the waiting reads of every branch not cancelled end, oldest first |
| `TeeEffects.EndReachesPullers` | runtime/src/globals/streams/readable/source.rs:83-177 | Over any run once the original has closed, with nothing deferred and no failed clone: as soon as one branch calls its `pull`, every branch not cancelled is closed for the rest of the run and no read waits |
| `TeeEffects.BranchReadsOnce` | runtime/src/globals/streams/readable/source.rs:83-95 | A call on a branch reads the original once if the branch calls its `pull` and no read is in flight; with one in flight it only asks to read again |
| `TeeEffects.HandOverReadsOnce` | runtime/src/globals/streams/readable/source.rs:96-157 | Handing over a chunk reads the original once more if and only if that made a branch call its `pull`, and never after a failed clone |
| `TeeEffects.NewTeeReads` | runtime/src/globals/streams/readable/source.rs:535-543 | A branch of a new tee reads the original as soon as its source has started |
| `TeeStream.FailedCloneErrorsBoth` | runtime/src/globals/streams/readable/source.rs:127-139 | A chunk that cannot be cloned errors every branch not cancelled, with what it had been given; `reading` stays set |
| `TeeStream.FailedTeeIsFinal` | runtime/src/globals/streams/readable/source.rs:83-95 | After that the original is never read again, whatever its source and the branches' users do |
| `TeeStream.ErrorOrphans` | runtime/src/globals/streams/readable/source.rs:178-180 | An error of the original moves neither branch, with or without a read in flight |
| `TeeStream.OrphansWaitForever` | runtime/src/globals/streams/readable/source.rs:178-180 | For ever after, a branch that is not cancelled stays readable: the error is never forwarded, where the Streams Standard forwards it |
| `TeeStream.TeeStepKeeps` | runtime/src/globals/streams/readable/source.rs:83-188 | Each event keeps the tee's invariant |
| `TeeStream.NewTeeIsSound` | runtime/src/globals/streams/readable/mod.rs:248-281 | A tee of any sound, just locked default stream starts in the invariant |
| `TeeStream.ChunkStepKeeps` | runtime/src/globals/streams/readable/source.rs:98-156 | The deferred step gives the chunk to every branch not cancelled, in step, or errors both when it cannot be cloned |
| `TeeState.TeeDefaultState.Pull` | runtime/src/globals/streams/readable/source.rs:83-95 | A second pull while a read is in flight only sets `read_again`; otherwise one read is started |
| `TeeState.TeeDefaultState.DeliverChunk` | runtime/src/globals/streams/readable/source.rs:98-156 | The deferred step as the machine describes it, with the read asked for meanwhile |
| `TeeState.TeeDefaultState.OnSettled` | runtime/src/globals/streams/readable/source.rs:99-180 | The request's three closures: defer the chunk, close the branches not cancelled and end their waiting reads, or only clear `reading` |
| `TeeState.TeeDefaultState.CancelBranch` | runtime/src/globals/streams/readable/source.rs:437-443 | Marks the branch cancelled in the shared state when its stream was readable |
| `Macrotasks.EveryStartIsInOrder` | runtime/src/event_loop/macrotasks.rs:149-225 | On every run, whatever callbacks enqueue and clear: ids grow and are never reused; a task starts only at or after its deadline; a cleared task or a terminated signal never starts later; a task that is no interval starts at most once; an interval starts again only a full duration after it last finished |
| `MacrotaskSchedule.ReadyIff` | runtime/src/event_loop/macrotasks.rs:149-225 | On every run, between jobs: a task may start if and only if the log plans a start for it that is due; so a job is idle only if none is, no due task is forgotten, and every task is due exactly a duration after it was set, or after it last ended |
| `MacrotaskSchedule.CommandIsTold` | runtime/src/event_loop/macrotasks.rs:132-202 | Every command writes its note into the log: a timer with the larger of the delay asked for and its minimum, under a fresh id; a clear or an abort of a task that is in the queue; only waiting lets time pass |
| `MacrotaskSchedule.JobIsTold` | runtime/src/event_loop/macrotasks.rs:149-169 | A job notes its start, then what its callback commands, then its end |
| `MacrotaskSchedule.ClearedNeverStarts` | runtime/src/event_loop/macrotasks.rs:194-202 | Whatever happens after a command that clears a task, or aborts a waiting signal, the task never starts again |
| `MacrotaskSchedule.ClearedByCallback` | runtime/src/event_loop/macrotasks.rs:149-169 | The same if the command is given by a callback, its own included |
| `MacrotaskSchedule.ClearIsTold` | runtime/src/event_loop/macrotasks.rs:194-202 | Clearing notes a planned task and leaves every other as it was |
| `MacrotaskSchedule.AbortIsTold` | runtime/src/event_loop/macrotasks.rs:132-137 | Aborting a waiting signal notes it and leaves every task where it is |
| `MacrotaskSchedule.IntervalWaitsAgain` | runtime/src/event_loop/macrotasks.rs:65-70 | An interval that its callback has not cleared waits again after its run, a full duration from the end; any other task, and a cleared one, is gone |
| `MacrotaskSchedule.RunKeepsSchedule` | runtime/src/event_loop/macrotasks.rs:149-225 | Every run keeps the queue as its log plans it, task by task |
| `Macrotasks.EveryDelayIsClamped` | runtime/src/globals/timers.rs:20-37 | On every run a timer waits at least one millisecond, and at least four once more than five timers were enqueued before it |
| `Macrotasks.NextIsAdvisory` | runtime/src/event_loop/macrotasks.rs:171-231 | Two queues that differ only in the task remembered as the next one have the same runs: what `enqueue` and `set_next` remember decides nothing, since `run_job` searches anew |
| `Macrotasks.HappenKeeps` | runtime/src/event_loop/macrotasks.rs:149-169 | Each `run_job` starts at most one task, and keeps the queue's invariant |
| `Macrotasks.EndKeeps` | runtime/src/event_loop/macrotasks.rs:65-70 | After its callback an interval's deadline is a full duration away, and any other task is gone |
| `Macrotasks.CallbackStartsNothing` | runtime/src/event_loop/macrotasks.rs:171-202 | Nothing a callback does to the queue starts a task |
| `MacrotaskQueues.MacrotaskQueue.Enqueue` | runtime/src/event_loop/macrotasks.rs:171-192 | The new id is fresh, no other task is lost, and `next` changes as described |
| `MacrotaskQueues.MacrotaskQueue.SetTimer` | runtime/src/globals/timers.rs:20-37 | Enqueues a timer with the clamped delay |
| `MacrotaskQueues.MacrotaskQueue.Remove` | runtime/src/event_loop/macrotasks.rs:194-202 | Takes the task out, notes it, clears `next` if it was the one, and leaves every other task as it was |
| `MacrotaskQueues.MacrotaskQueue.FindNext` | runtime/src/event_loop/macrotasks.rs:204-225 | The walk drops exactly the terminated signals; it picks a task that is due, and picks none only if none is |
| `MacrotaskQueues.MacrotaskQueue.RunJob` | runtime/src/event_loop/macrotasks.rs:149-169 | Runs one due task, if there is one, and nothing else; its callback may change the queue under it |
| `ContextRoots.Context.Root` | ion/src/context.rs:150-155 | The new root is the newest in its arena and in the order log |
| `ContextRoots.Context.Drop` | ion/src/context.rs:219-255 | The walk of the reversed log with one reversed arena for each kind removes exactly what was rooted, newest first; no `unwrap` fails |
| `ContextRoots.RootAllThenDrop` | ion/src/context.rs:150-255 | For every sequence of roots of the nine kinds, the drop unroots all of them in last-in, first-out order, which is the only order in which removal from the root list succeeds |
| `ContextRoots.UnrootingInReverseEmpties` | ion/src/context.rs:240-240 | Removal in reverse rooting order never removes anything but the newest root and leaves none |
| `NormalPath.NormalisePath` | ion/src/utils.rs:14-33 | The loop computes the normal form of the path |
| `NormalPath.NormaliseKeepsMeaning` | ion/src/utils.rs:14-33 | In every tree without links and from every base, where walking a path leads, walking its normal form leads too |
| `NormalPath.SameFormIffSameMeaning` | ion/src/utils.rs:14-33 | Two paths have the same normal form if and only if they lead to the same place from everywhere: the form is canonical |
| `NormalPath.NormaliseIsNormal` | ion/src/utils.rs:14-33 | The result is leading parents or a root, then names only |
| `NormalPath.NormalFormIsFixed` | ion/src/utils.rs:14-33 | A path of that form is left as it is |
| `NormalPath.Idempotent` | ion/src/utils.rs:14-33 | Normalising twice is normalising once |
| `NormalPath.NormalisePrefix` | ion/src/utils.rs:14-33 | Normalising a prefix first makes no difference, for every continuation |
| `NormalPath.NormalStringReadsBack` | ion/src/utils.rs:14-33 | On strings: the result parses to the normal components, and normalising it again returns it unchanged |
| `NormalPath.InnerSegments` | ion/src/utils.rs:14-33 | Inside a path a `.` and a doubled slash are nothing, `..` goes to the parent, and any other segment is a name |
| `NormalPath.NormalStringKeepsMeaning` | ion/src/utils.rs:14-33 | On strings: the result leads where the path leads |
| `StackTrace.TraceRoundTrip` | ion/src/stack.rs:68-105 | Parsing the printed records gives them back if and only if each has a function that is absent, or non-empty without `@` and newline, and a normalised file without newline; files may contain `:` and `@`, and numbers are any u32 |
| `StackTrace.LineRoundTrip` | ion/src/stack.rs:86-102 | The same for one record whose line holds no newline |
| `StackTrace.LineParsesIff` | ion/src/stack.rs:86-102 | A line parses if and only if it has a name before its first `@` and two numbers that fit after its last two colons; anything else fails an `unwrap` |
| `StackTrace.LineReads` | ion/src/stack.rs:86-102 | A line made of a name, any file and two numbers reads as them, with the file in normal form and no name for an empty one |
| `StackTrace.FromString` | ion/src/stack.rs:83-105 | The parsing loop returns the records of the lines, or fails where the source would fail an `unwrap` |
| `StackTrace.ParsePosition` | ion/src/stack.rs:88-89 | Splitting from the right finds line and column even when the file contains colons |
| `StackTrace.ParseDecimal` | ion/src/stack.rs:97-98 | Every u32 printed in decimal parses to itself |
| `StackTrace.LinesOfShow` | ion/src/stack.rs:86-86 | The lines of a printed trace are the lines of its records, when none of those contains a newline |
| `FormEncoding.ParseSerialised` | runtime/src/globals/url/search_params.rs:171-173 | Serialising any list of pairs and parsing the result gives the list back (URL Standard, section 5) |
| `FormEncoding.ParseConcat` | runtime/src/globals/url/mod.rs:270-278 | An ampersand separates pairs wherever it stands, and empty stretches are none (URL Standard, section 5.1) |
| `FormEncoding.ParseStretch` | runtime/src/globals/url/mod.rs:270-278 | A stretch is a name up to its first equals sign and a value after it; without one all of it is the name (URL Standard, section 5.1) |
| `FormEncoding.BadPercentStays` | runtime/src/globals/url/mod.rs:270-278 | A percent sign that two hexadecimal digits do not follow stands for itself |
| `FormEncoding.WrittenAs` | runtime/src/globals/url/search_params.rs:171-173 | Each byte is written on its own: letters, digits and `*-._` as they are, a space as a plus sign, any other escaped in capitals (URL Standard, section 5.2) |
| `FormEncoding.TextRoundTrip` | runtime/src/globals/url/search_params.rs:171-173 | Percent-encoding any text and decoding it gives it back, through UTF-8 with lossy decoding |
| `Utf8.DecodeEncoded` | runtime/src/globals/url/search_params.rs:83-83 | Lossy UTF-8 decoding of an encoded text is the text |
| `Utf8.FromUtf8Iff` | runtime/src/globals/fetch/mod.rs:480-480 | Strict decoding accepts exactly the bytes that encode a text |
| `PairLists.SetTakes` | runtime/src/globals/url/search_params.rs:139-162 | `set` leaves the name with the one value, where it first stood or else at the end, and all other pairs as they were and in their order |
| `PairLists.SetKeeps` | runtime/src/globals/url/search_params.rs:139-162 | `set` leaves every other name's `getAll` as it was |
| `PairLists.SetIsDetermined` | runtime/src/globals/url/search_params.rs:139-162 | What those two say of the result determines it |
| `PairLists.DeleteTakes` | runtime/src/globals/url/search_params.rs:113-120 | `delete` takes all values of the name, or just those equal to the given one |
| `PairLists.DeleteKeeps` | runtime/src/globals/url/search_params.rs:113-120 | `delete` leaves every other name's `getAll` as it was |
| `PairSort.SortedIsStable` | runtime/src/globals/url/search_params.rs:164-167 | `sort` puts the names in the order of their UTF-16 code units, and every name's `getAll` stays as it was |
| `PairSort.StableSortIsUnique` | runtime/src/globals/url/search_params.rs:164-167 | Only one list is in that order with those values, so any stable sort gives this one |
| `PairSort.SameValuesPermute` | runtime/src/globals/url/search_params.rs:164-167 | Equal `getAll` for every name makes the lists permutations of each other |
| `PairSort.NameOrder` | runtime/src/globals/url/search_params.rs:165-165 | The order by UTF-16 units is total, and names equal in it are equal |
| `PairSort.UnitsAreNotScalars` | runtime/src/globals/url/search_params.rs:165-165 | It is not the order by characters: U+10000 comes before U+FFFD |
| `SearchParams.URLSearchParams.Append` | runtime/src/globals/url/search_params.rs:108-111 | Adds the pair at the end; the linked URL's query then reads as the new list |
| `SearchParams.URLSearchParams.Delete` | runtime/src/globals/url/search_params.rs:113-120 | The filtering pass removes exactly the doomed pairs; the linked URL's query follows |
| `SearchParams.URLSearchParams.RetainFirst` | runtime/src/globals/url/search_params.rs:139-154 | The one-pass `retain` keeps the first match, notes its place, and drops the later ones |
| `SearchParams.URLSearchParams.Set` | runtime/src/globals/url/search_params.rs:139-162 | Ends with the list that `SetTakes` and `SetKeeps` describe; the linked URL's query follows |
| `SearchParams.URLSearchParams.Sort` | runtime/src/globals/url/search_params.rs:164-167 | Ends with the stable sort; the linked URL's query follows |
| `SearchParams.URLSearchParams.Get` | runtime/src/globals/url/search_params.rs:122-124 | The first of `getAll`, or none |
| `SearchParams.URLSearchParams.Has` | runtime/src/globals/url/search_params.rs:131-137 | Whether some pair has the name (and value) |
| `SearchParams.URLSearchParams.ToString` | runtime/src/globals/url/search_params.rs:171-173 | A text that parses to the pairs |
| `SearchParams.URLSearchParams.Update` | runtime/src/globals/url/search_params.rs:175-186 | Sets the linked URL's query so that it reads as the pairs, removes it when there are none, and changes nothing else of the URL |
| `SearchParams.URL.constructor` | runtime/src/globals/url/mod.rs:57-74 | A new URL is linked to parameters that show its query |
| `SearchParams.URL.SetHref` | runtime/src/globals/url/mod.rs:153-162 | Replaces the URL and keeps the parameters coherent; a text that does not parse changes neither |
| `SearchParams.URL.SetSearch` | runtime/src/globals/url/mod.rs:270-278 | Replaces or removes the query only, by the query state of the URL Standard, and keeps the parameters coherent |
| `SearchParams.PerformAll` | runtime/src/globals/url/mod.rs:153-278 | However operations on a URL and on its parameters are interleaved, the parameters show the query throughout, and the URL ends as it would without a second object |
| `SearchParams.Perform` | runtime/src/globals/url/search_params.rs:108-186 | The same for each single operation |
| `QueryText.SearchRoundTrip` | runtime/src/globals/url/mod.rs:270-278 | Assigning the text of `toString` to `search` gives the list back |
| `QueryText.StoredKeepsPairs` | runtime/src/globals/url/mod.rs:270-278 | Storing the text assigned to `search` changes no pair: the parameters show what the text itself reads as |
| `QueryText.StoredIsClean` | runtime/src/globals/url/mod.rs:270-278 | Nothing that the query state encodes is left in the stored query, and all of it is ASCII |
| `QueryText.StoredAs` | runtime/src/globals/url/mod.rs:270-278 | Each byte of the text is stored on its own: controls, a space, double quotes, `#`, `<`, `>` and all beyond ASCII are escaped in capitals, an apostrophe only under a special scheme, any other stays |
| `QueryText.AssigningSearchToItself` | runtime/src/globals/url/mod.rs:265-278 | Assigning `search` its own value puts a question mark before the first name, since the setter does not take one away (URL Standard, section 6.1, does) |
| `SearchParams.QueryShowsPairs` | runtime/src/globals/url/search_params.rs:175-186 | The query written for any list, none for the empty one, reads as that list |
| `Redirects.EveryFetchEnds` | runtime/src/globals/fetch/mod.rs:202-239 | Against any network a fetch enters `main_fetch` once for each location, at most 21 times, and sends at most two requests for each, 42 in all, in the order of the locations; the URL is the last location, and every location after the first is http(s); only a panic over a redirect's policy leaves its location unentered |
| `Redirects.FetchPanicsIff` | runtime/src/globals/fetch/mod.rs:476-534 | A fetch panics if and only if the reply that came last has a status text that is not UTF-8, or is a redirect to be followed to one location that is not, or the request has moved on and the search for its referrer policy met a text that is not |
| `Redirects.WellFormedNeverPanics` | runtime/src/globals/fetch/mod.rs:476-534 | Against a network that sends only UTF-8 no fetch panics |
| `Redirects.RedirectedIsHonest` | runtime/src/globals/fetch/mod.rs:235-239 | The result, unless there is none for a panic, says `redirected` if and only if it is not an error and there is more than one location; a result that is neither an error nor an opaque redirect carries the last location's URL |
| `Redirects.FormsAreKept` | runtime/src/globals/fetch/mod.rs:511-522 | Every request sent has the original verb and body, or is a GET without a body made of a verb other than GET and HEAD; which redirects change it is `RedirectHops.EveryRequestFollows` |
| `RedirectHops.EveryRequestFollows` | runtime/src/globals/fetch/mod.rs:202-537 | A fetch sends a first request if and only if it is admissible; each further one is the same again after a 421, or exactly what the redirect that came last makes of the one before: its target with the fragment kept, its policy, and its form, which 301 and 302 change for a POST, 303 for all but GET and HEAD, and no other status does |
| `RedirectHops.FollowedIff` | runtime/src/globals/fetch/mod.rs:476-509 | A redirect is followed if and only if it names one location, in UTF-8, that parses to an http(s) URL, fewer than 20 were followed, no credentials go across origins and no streamed body is sent again; the exact answer otherwise |
| `RedirectHops.AnswerIs` | runtime/src/globals/fetch/mod.rs:235-290 | What a fetch answers: the status of the last reply, the kind that the mode asks for, and a body unless the verb or the status has none; an opaque redirect exactly for a redirect in manual mode; any other redirect only if it was to be followed and has no location; from a local scheme what is found there |
| `RedirectHops.NetworkAnswerIs` | runtime/src/globals/fetch/mod.rs:358-465 | A request is sent once, and again if the first reply is a 421 and its body can be had again; it fails if it may only come from a cache, if nothing answers, or if a proxy asks for credentials and no window can; else it is answered with the last reply |
| `RedirectHops.PlainReplyIsAnswered` | runtime/src/globals/fetch/mod.rs:202-239 | From any redirect count a plain reply to an admissible request is passed on with its status, and nothing more is sent |
| `RedirectHops.LocalIsAnswered` | runtime/src/globals/fetch/mod.rs:211-212 | What is found under a scheme without a network is answered without sending anything |
| `RedirectHops.FindPolicyIs` | runtime/src/globals/fetch/mod.rs:528-534 | The search finds the last value that names a policy, and panics at one that is not UTF-8 and comes later |
| `RedirectHops.MainFetchExtends` | runtime/src/globals/fetch/mod.rs:202-239 | From any redirect count: the requests sent since follow from one another, and one is sent if and only if the request is admissible |
| `Redirects.MainFetchTravels` | runtime/src/globals/fetch/mod.rs:202-239 | The same bounds from any redirect count, by induction on the redirects left |
| `Redirects.MainFetchExplained` | runtime/src/globals/fetch/mod.rs:202-239 | From any redirect count, a panic over the status text or the location comes if and only if the last reply has such a text, and one over the policy only if it has such a text |
| `Redirects.HttpFetchTravels` | runtime/src/globals/fetch/mod.rs:340-355 | Redirects are followed only in follow mode; an opaque redirect comes only from manual mode and from the first hop |
| `Redirects.RedirectFetchTravels` | runtime/src/globals/fetch/mod.rs:467-537 | A followed redirect goes to an http(s) target and adds exactly that location; a policy that is not UTF-8 stops it there |
| `Redirects.NetworkFetchSends` | runtime/src/globals/fetch/mod.rs:358-465 | At most one retry, after a 421; the request itself is not changed |
| `Redirects.LimitsAreReached` | runtime/src/globals/fetch/mod.rs:495-497 | A network exists for which a fetch makes all 21 entries and all 42 requests: the bounds are exact |
| `FetchClient.Client.MainFetch` | runtime/src/globals/fetch/mod.rs:202-239 | The method changes the request object as the description says |
| `FetchClient.Client.HttpFetch` | runtime/src/globals/fetch/mod.rs:340-355 | The three redirect modes, as described |
| `FetchClient.Client.HttpNetworkFetch` | runtime/src/globals/fetch/mod.rs:358-465 | One or two requests, or a panic over the status text, as described |
| `FetchClient.Client.HttpRedirectFetch` | runtime/src/globals/fetch/mod.rs:467-537 | Every refusal, every panic, and the change of verb, body, locations, URL and referrer policy, as described |
| `FetchClient.RequestObject.MoveTo` | runtime/src/globals/fetch/mod.rs:511-526 | Moves the request on in place: the new URL and location, and the form that the status asks for |
| `FetchClient.Client.SearchPolicy` | runtime/src/globals/fetch/mod.rs:528-534 | The walk from the last policy header finds the one that names a policy, or a text that is not UTF-8 before it |
| `FetchClient.Client.FetchInternal` | runtime/src/globals/fetch/mod.rs:95-117 | A fetch of a new request: entries equal locations, at most 21; the URL is the last location; `redirected` is honest, if there is no panic |
| `FetchClient.RequestObject.Clone` | runtime/src/globals/fetch/request/mod.rs:334-362 | A copy starts over at the last location |
| `ByteController.ByteStreamController.PullIfNeeded` | runtime/src/globals/streams/readable/controller.rs:390-392 | Moves the pull protocol as the machine does and nothing else, and calls the source exactly when a pull is due |
| `ByteController.ByteStreamController.Error` | runtime/src/globals/streams/readable/controller.rs:935-937 | The script's `error`: the same as erroring internally |
| `ByteController.ByteStreamController.EnqueueShifted` | runtime/src/globals/streams/readable/controller.rs:889-930 | The part of `enqueue` after the detached descriptor is dealt with, for each kind of reader |
| `ByteController.ByteStreamController.ServeFront` | runtime/src/globals/streams/readable/controller.rs:899-912 | A waiting default read takes the front of the queue, and the need to pull is evaluated |
| `ByteController.ByteStreamController.RequeueDetached` | runtime/src/globals/streams/readable/controller.rs:696-704 | The answer to a detached descriptor |
| `ByteController.ByteStreamController.TakeSatisfied` | runtime/src/globals/streams/readable/controller.rs:709-725 | A satisfied descriptor is taken off with its whole elements; the tail beyond them goes to the end of the queue |
| `ByteController.ByteStreamController.CommitSatisfied` | runtime/src/globals/streams/readable/controller.rs:710-728 | The answer to a satisfied descriptor: tail put back, view committed, queue processed |
| `ByteController.ByteStreamController.PullForRead` | runtime/src/globals/streams/readable/controller.rs:162-213 | The byte arm of `Controller::pull`, from the queue or with an auto-allocated descriptor |
| `ByteController.ByteStreamController.ReadInternal` | runtime/src/globals/streams/readable/reader.rs:357-408 | A BYOB read of a readable or closed stream, with bytes queued or none |
| `ByteController.ByteStreamController.TakeFromQueue` | runtime/src/globals/streams/readable/reader.rs:380-403 | A BYOB read answered from the queue, or waiting with all it could take |
| `ByteController.ByteStreamController.DetachFront` | runtime/src/globals/streams/readable/controller.rs:218-229 | `Controller::release` keeps only the front descriptor, detached |
| `DefaultControllers.DefaultController.constructor` | runtime/src/globals/streams/readable/controller.rs:421-432 | A new controller is the machine's initial state, and valid |
| `DefaultControllers.DefaultController.ResetQueue` | runtime/src/globals/streams/readable/controller.rs:513-516 | Empties the queue and sets its size to zero |
| `DefaultControllers.DefaultController.AnswerRead` | runtime/src/globals/streams/readable/controller.rs:461-467 | The oldest waiting read gets the chunk at once |
| `DefaultControllers.DefaultController.QueueChunk` | runtime/src/globals/streams/readable/controller.rs:469-500 | The chunk and its size go to the end of the queue, and the need to pull is evaluated |
| `DefaultControllers.DefaultController.PullFulfilled` | runtime/src/globals/streams/readable/controller.rs:346-356 | The reaction to a fulfilled pull, as the machine has it |
| `DefaultStream.EnqueueKeeps` | runtime/src/globals/streams/readable/controller.rs:458-501 | `enqueue` keeps order, accounting and lifecycle |
| `DefaultStream.ReadKeeps` | runtime/src/globals/streams/readable/controller.rs:132-161 | So does a read, whether it pops a chunk or waits |
| `DefaultStream.CloseKeeps` | runtime/src/globals/streams/readable/controller.rs:439-448 | So do `close`, `cancel` and release, which leave no read waiting |
| `TeeState.TeeDefaultState.constructor` | runtime/src/globals/streams/readable/source.rs:535-543 | A new tee in the machine's initial state |
| `TeeState.TeeDefaultState.GiveTo` | runtime/src/globals/streams/readable/source.rs:139-148 | A branch gets the chunk, and its controller's pull may start the next read |
| `TeeState.TeeDefaultState.HandOver` | runtime/src/globals/streams/readable/source.rs:139-156 | Both branches get the chunk, `reading` is cleared, and a read asked for meanwhile is started |
| `TeeStream.OriginalMovedKeeps` | runtime/src/globals/streams/readable/source.rs:96-178 | Whatever settles the tee's read (a chunk, the end or an error) keeps the branches in step with what was read; what the end does to them is `TeeEffects.EndReachesBranches` |
| `TeeStream.PullKeeps` | runtime/src/globals/streams/readable/source.rs:83-95 | A branch's pull starts a read only if none is in flight |
| `TeeStream.CancelBranchKeeps` | runtime/src/globals/streams/readable/source.rs:436-452 | Cancelling a branch leaves the other one in step |
| `MacrotaskQueues.MacrotaskQueue.Abort` | runtime/src/event_loop/macrotasks.rs:132-137 | Sets a signal's termination flag; other tasks have none |
| `MacrotaskQueues.MacrotaskQueue.Call` | runtime/src/event_loop/macrotasks.rs:104-123 | A callback's commands change the queue while it runs |
| `Macrotasks.EnqueueKeeps` | runtime/src/event_loop/macrotasks.rs:171-192 | Enqueueing keeps the queue consistent with its log, under a fresh id |
| `Macrotasks.ClearKeeps` | runtime/src/event_loop/macrotasks.rs:194-202 | So does clearing; what it takes out is `MacrotaskSchedule.ClearIsTold` |
| `Macrotasks.TerminateKeeps` | runtime/src/event_loop/macrotasks.rs:132-137 | So does terminating a signal |
| `Macrotasks.PurgeKeeps` | runtime/src/event_loop/macrotasks.rs:204-225 | So does `find_next` when nothing is due |
| `Macrotasks.BeginKeeps` | runtime/src/event_loop/macrotasks.rs:149-158 | A due task that is neither cleared nor terminated may start: its start is in order |
| `Macrotasks.IntervalFacts` | runtime/src/event_loop/macrotasks.rs:65-70 | A repeating task in the queue has the duration it was enqueued with |
| `SearchParams.URL.GetSearch` | runtime/src/globals/url/mod.rs:265-267 | The query reads as the pairs the parameters show |
| `FetchClient.RequestObject.constructor` | runtime/src/globals/fetch/request/mod.rs:73-101 | A request starts at its only location |
| `Redirects.EndlessRedirects` | runtime/src/globals/fetch/mod.rs:202-537 | Under an endlessly redirecting network the counts are exactly the bounds, from any redirect count, and the result is an error |

## Left out

- SpiderMonkey, garbage collection, handles and promise machinery: reads, tasks and roots are numbers, and a settled promise is an entry in a log.
- Calls of a script's `pull` or `size` that throw or re-enter the controller: `pull` is an event of the trace, its promise settles in a later step.
- Transfer, clone, copy and view construction of buffers are taken to succeed, and nothing is claimed of bounds of the buffers behind views.
- A source that writes into a BYOB request's view anywhere but at its start, or without answering, is not modelled: the bytes come with the answer.
- The `disturbed` flag, the readers' `closed` promises and `desiredSize`; reads on a released reader and reads refused for their arguments are only reported as refused.
- High-water marks that are not a number.
- Sources other than scripts and default tees: bytes, buffers, iterators and byte tees; the composite cancel of a tee, and cancel through a reader.
- TeeState.TeeDefaultState.Pull: the three streams of a tee are held as values of the default-stream machine, so aliasing among their objects is not captured.
- DefaultStream.FirstInFirstOut: speaks of chunks accepted before the queue is reset; what a reset discards is not delivered.
- Macrotasks.EveryStartIsInOrder: callbacks are taken to succeed, ids and nesting not to overflow, ids to be generated by the queue, and the clock not to move inside `find_next`; a callback is given as its list of commands.
- Microtasks, futures and `poll_event_loop`: a drain loop and fixed-order polling, whose termination depends on the callbacks.
- NormalPath.NormaliseKeepsMeaning: Unix paths only, without links; Windows prefixes are not part of this model.
- StackTrace.FromString: answers None where the source fails an `unwrap`; source maps and the formatter are left out.
- SearchParams.URL.SetHref: parsing URLs is a parameter of it and of the constructor. The URL library's `set_query` is not part of this model: the query state of the URL Standard stands for it. Other URL setters do not touch the query.
- PairSort.SortedIsStable: the library's stable sort is given as an insertion sort; StableSortIsUnique shows that no other result is possible.
- The conversion of script values to search parameters, and the iterator over them.
- Redirects.EveryFetchEnds: headers other than Location and Referrer-Policy, CORS checks beyond credentials in redirects, cache modes other than only-if-cached, abort signals and range checks are left out; the library calls that make an HTTP request of the URL and the headers are taken to succeed.
- Console, modules, file system, TLS, encoders, base64, blobs, headers guards and procedural macros.
