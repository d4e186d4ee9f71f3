/** What each operation on a byte stream brings about, from every reachable state: for reads and for the state. */
module ByteEffects {
  import opened Chunks
  import opened StreamCore
  import opened Wrappers
  import opened PullProtocol
  import opened PullInto
  import opened ByteStream
  import opened ByteLifecycle
  import opened ByteDelivery
  import opened ByteAnswers
  import opened ByteExact
  import opened ByteRanks
  import opened ByteOutcomes
  import opened ByteAmounts

  // ---- What becomes of a read --------------------------------------------------------------------

  /**
   A default read takes the entry at the front of the queue, as a view of its own; else it waits, with a
   descriptor if buffers are allocated for it. On a closed stream it ends, on an errored one it fails with the
   stream's error.
   */
  lemma DefaultReadGets(s: Stream)
    requires Base(s) && s.core.kind == DefaultReader
    ensures var r, id, log := ReadDefault(s), s.core.issued, s.core.log;
            && r.Returns? && r.ok && r.s.core.issued == id + 1 && r.s.core.st == s.core.st
            && match s.core.st
               case Closed => r.s.core.log == log + [Ended(id, None)]
               case Errored => s.core.error.Some? && r.s.core.log == log + [Failed(id, s.core.error.value)]
               case Readable =>
                 if s.queue != [] then
                   && r.s.core.log == log + [Served(id, s.queue[0])] && s.queue[0] != []
                   && s.queue[0] + Flatten(r.s.queue) == Flatten(s.queue) && r.s.pending == s.pending
                 else
                   && r.s.core.log == log && r.s.core.requests == s.core.requests + [id] && r.s.queue == []
                   && |r.s.pending| == |s.pending| + (if s.auto > 0 then 1 else 0)
                   && (s.auto > 0 ==> r.s.pending[|s.pending|].Length() == s.auto)
  {
    ReadDefaultKeepsBase(s);
    EmptyQueueHoldsNothing(s.queue);
    hide SettlesOnce, FollowsProtocol, Shapes, Evaluate;
  }

  /**
   A BYOB read that finds no bytes queued, or others waiting: it waits behind them with a view of its own;
   on a closed stream it ends with an empty view, unless descriptors are pending; on an errored one it
   fails with the stream's error. A view without elements, or a minimum outside it, is refused.
   */
  lemma ByobReadGets(s: Stream, memory: seq<byte>, offset: nat, element: Positive, len: nat, min: nat)
    requires Base(s) && |memory| == len * element && s.core.kind == ByobReader
    requires s.core.st != Readable || s.pending != [] || s.queue == [] || !(0 < min <= len)
    ensures var r, id, log := ReadByob(s, memory, offset, element, len, min), s.core.issued, s.core.log;
            && r.Returns? && r.ok == (0 < min <= len)
            && if !r.ok then r.s == s
               else if s.core.st == Errored then
                 s.core.error.Some? && r.s.core.log == log + [Failed(id, s.core.error.value)]
               else if s.core.st == Closed && s.pending == [] then r.s.core.log == log + [Ended(id, Some([]))]
               else
                 && r.s.core.log == log && r.s.queue == s.queue
                 && r.s.pending == s.pending + [Descriptor([], memory, offset, min * element, element, ByobReader)]
                 && r.s.core.requests == s.core.requests + (if s.core.st == Readable then [id] else [])
  {
    EmptyQueueHoldsNothing(s.queue);
    hide SettlesOnce, FollowsProtocol, Shapes, Evaluate, Flatten, ReadFromQueue;
  }

  // ---- What becomes of the reads that wait -------------------------------------------------------

  /** `close` ends the reads of a default reader at once; with an unaligned read at the front it errors the stream. */
  lemma CloseEndsReads(s: Stream)
    requires Base(s)
    ensures var r := Close(s);
            var t, unaligned := r.s, s.pending != [] && s.pending[0].Filled() % s.pending[0].element != 0;
            && r.ok == (s.core.st == Readable && !unaligned)
            && if s.core.st != Readable then t == s
               else if unaligned then
                 && t.core.st == Errored && t.core.error == Some(PendingNotAligned)
                 && AllSettled(s.core, t.core, id => Failed(id, PendingNotAligned))
               else
                 && t.core.st == Closed && t.pending == s.pending && t.queue == s.queue && t.core.kind == s.core.kind
                 && if s.core.kind == DefaultReader then AllSettled(s.core, t.core, id => Ended(id, None))
                    else Untouched(s.core, t.core)
  {
    hide SettlesOnce, FollowsProtocol, Shapes, Accounts;
    BulkSettlingIs(s.core, PendingNotAligned);
  }

  /** Cancelling, refused on a locked stream, closes an open one and drops what is queued and pending. */
  lemma CancelDrops(s: Stream)
    requires Base(s)
    ensures var r := Cancel(s);
            && r.Returns? && r.ok == (s.core.kind == NoReader)
            && (!r.ok || s.core.st != Readable ==> r.s == s)
            && (r.ok && s.core.st == Readable ==>
                  && r.s.core.st == Closed && Untouched(s.core, r.s.core)
                  && r.s.queue == [] && r.s.size == 0 && r.s.pending == [] && r.s.slot == Vacant)
  {
  }

  /** Giving up the lock fails every waiting read; only the front descriptor stays, with what it holds. */
  lemma ReleaseFailsReads(s: Stream)
    requires Base(s)
    ensures var r := ReleaseLock(s);
            && r.Returns? && r.ok == (s.core.kind != NoReader)
            && if !r.ok then r.s == s
               else
                 && r.s.core.kind == NoReader && r.s.core.st == s.core.st && r.s.core.error == s.core.error
                 && r.s.queue == s.queue && |r.s.pending| == (if s.pending == [] then 0 else 1)
                 && (s.pending != [] ==> r.s.pending[0] == s.pending[0].(kind := NoReader))
                 && AllSettled(s.core, r.s.core, id => Failed(id, ReaderReleased))
  {
    BulkSettlingIs(s.core, ReaderReleased);
  }

  /** The reason that the operation errors an open stream for, if it does. */
  function ErrorOf(op: Op): Option<Reason> {
    match op
    case ErrorStream(reason) => Some(reason)
    case StartRejected(reason) => Some(reason)
    case PullRejected(reason) => Some(reason)
    case _ => None
  }

  /** An error is kept, fails every waiting read with its reason, and drops the queues; later ones change nothing. */
  lemma ErrorFailsReads(s: Stream, op: Op)
    requires Base(s) && Possible(s, op) && ErrorOf(op).Some?
    ensures var r, reason := Step(s, op), ErrorOf(op).value;
            && r.Returns?
            && if s.core.st == Readable then
                 && r.s.core.st == Errored && r.s.core.error == Some(reason)
                 && r.s.queue == [] && r.s.size == 0 && r.s.pending == [] && r.s.slot == Vacant
                 && AllSettled(s.core, r.s.core, id => Failed(id, reason))
               else r.s == s.(pull := r.s.pull)
    ensures var t := Step(s, op).s;
            && t.pull.settled == (s.pull.settled || op.StartRejected?) && t.pull.started == s.pull.started
            && t.pull.outstanding == (s.pull.outstanding && !op.PullRejected?)
  {
    hide Base;
    BulkSettlingIs(s.core, ErrorOf(op).value);
  }

  /** A lock is given to an unlocked stream only, and a request for the front descriptor made if none is cached. */
  lemma OthersSettleNothing(s: Stream, op: Op)
    requires Base(s) && Possible(s, op)
    requires op.AcquireReader? || op.ByobRequest? || op.StartFulfilled? || op.PullFulfilled?
    ensures var r := Step(s, op);
            && r.Returns? && r.s == s.(core := r.s.core, pull := r.s.pull, slot := r.s.slot)
            && if op.AcquireReader? && s.core.kind == NoReader && op.kind != NoReader
               then r.ok && r.s.core == s.core.(kind := op.kind)
               else r.s.core == s.core && (op.AcquireReader? ==> !r.ok)
    ensures var r := Step(s, op);
            r.Returns? && r.s.slot == (if op.ByobRequest? && s.slot == Vacant && s.pending != [] then Live else s.slot)
    ensures op.StartFulfilled? ==> Step(s, op).s.pull.started && Step(s, op).s.pull.settled
  {
    hide Base, ShouldCallPull;
  }

  // ---- Chunks ------------------------------------------------------------------------------------

  /** A chunk without bytes, or for a stream that is not open, is refused; one under no reader is queued. */
  lemma EnqueueAccepts(s: Stream, chunk: seq<byte>)
    requires Base(s) && Enqueue(s, chunk).Returns?
    ensures var r := Enqueue(s, chunk);
            && r.ok == (chunk != [] && s.core.st == Readable)
            && (!r.ok ==> r.s == s)
            && (r.ok && s.core.kind == NoReader ==>
                  r.s.core == s.core && r.s.queue == ShiftDetached(s).queue + [chunk])
  {
    ShiftKeepsQueue(s, chunk);
    hide SettlesOnce, FollowsProtocol, Shapes, Accounts, Evaluate, ShiftDetached, Serve, ProcessDescriptors;
    ShiftLeavesLine(s.(produced := s.produced + chunk));
  }

  lemma ShiftKeepsQueue(s: Stream, chunk: seq<byte>)
    ensures ShiftDetached(s.(produced := s.produced + chunk)).queue == ShiftDetached(s).queue
  {
  }

  /** Default reads that wait with nothing queued: the chunk goes to the oldest of them, as a whole. */
  lemma EnqueueGives(s: Stream, chunk: seq<byte>)
    requires Sound(s) && CanCloseOrEnqueue(s) && chunk != [] && s.core.kind == DefaultReader
    requires s.core.requests != [] && !(Detached(s.pending) && s.pending[0].data != [])
    ensures var r := Enqueue(s, chunk);
            && r.Returns? && r.s.queue == []
            && r.s.core.log == s.core.log + [Served(s.core.requests[0], chunk)]
            && r.s.core.requests == s.core.requests[1..]
  {
    hide SettlesOnce, FollowsProtocol, WellShaped, Unsatisfied, AllFit, Conserved, SettlesInOrder, Evaluate;
    assert s.queue == [] && s.size == 0;
  }

  // ---- Answers -----------------------------------------------------------------------------------

  /** The whole elements that this many bytes make up. */
  predicate WholeElements(n: nat, d: Descriptor, filled: nat) {
    n % d.element == 0 && n <= filled < n + d.element
  }

  /**
   An answer to a read of the present BYOB reader: below its minimum the read keeps the bytes and waits;
   else it is settled before any other, with the whole elements of what it holds, and what is left over goes
   to the end of the queue, for the reads that wait to take as much of as they can.
   */
  lemma AnswerSettles(s: Stream, bytes: seq<byte>)
    requires Sound(s) && s.core.st == Readable && Accepted(s, bytes) && s.pending[0].kind == ByobReader
    requires Respond(s, bytes).Returns?
    ensures s.core.requests != []
    ensures var t, d, log := Respond(s, bytes).s, s.pending[0], s.core.log;
            var held := d.Absorb(bytes);
            && Respond(s, bytes).ok && log <= t.core.log
            && if held.Filled() < d.min then
                 t.core == s.core && t.pending != [] && t.pending[1..] == s.pending[1..] && t.pending[0] == held
               else SettlesFirst(held, s.pending[1..], |Flatten(s.queue)|, s.core.requests[0], t.core.log[|log|..])
  {
    WrittenIsAnswered(s, bytes);
    WrittenFacts(s, bytes);
    SoundIsRanked(s);
    BaseOfSound(s);
    hide Sound, Base, Ranked, Respond, RespondReadable, SettlesFirst, Answering, LockStep, Paired;
    WrittenIsAnswering(s, bytes);
    var t := Written(s, bytes);
    assert t.pending[0] == s.pending[0].Absorb(bytes) && t.pending[1..] == s.pending[1..];
    if t.pending[0].Filled() < t.pending[0].min {
      KeepsWaiting(t);
    } else {
      SatisfiedSettles(t);
    }
  }

  lemma BaseOfSound(s: Stream)
    requires Sound(s)
    ensures Base(s)
  {
  }


  lemma WrittenIsAnswered(s: Stream, bytes: seq<byte>)
    requires s.core.st == Readable && Accepted(s, bytes)
    ensures Respond(s, bytes) == RespondReadable(Written(s, bytes))
  {
    hide RespondReadable;
    var t := s.(slot := Spent);
    assert t.(slot := Vacant, pending := s.pending[0 := s.pending[0].Absorb(bytes)], produced := s.produced + bytes)
        == Written(s, bytes);
  }

  lemma KeepsWaiting(t: Stream)
    requires t.pending != [] && t.pending[0].kind == ByobReader && t.pending[0].Filled() < t.pending[0].min
    ensures RespondReadable(t) == Returns(t, true)
  {
  }

  /** What the commit of a satisfied read adds to the log: its own event, then those of the loop. */
  ghost predicate SettlesFirst(
      d: Descriptor, rest: seq<Descriptor>, queued: nat, id: nat, events: seq<Event<seq<byte>>>)
  {
    && events != [] && events[0].Served? && events[0].id == id
    && events[0].view <= d.data && WholeElements(|events[0].view|, d, |d.data|)
    && TakesAll(rest, queued + |d.data| - |events[0].view|, events[1..])
  }

  lemma ProcessingTakesAll(s: Stream)
    requires AllPending(s.pending) && FrontOnly(s.pending) && FrontData(s.pending) == [] && NoEmptyChunk(s.queue)
    requires ProcessDescriptors(s).Returns?
    ensures var log := ProcessDescriptors(s).s.core.log;
            s.core.log <= log && TakesAll(s.pending, |Flatten(s.queue)|, log[|s.core.log|..])
  {
    hide Process, TakesAll, Flatten, NoEmptyChunk, AllPending, FrontOnly, FrontData;
    LoopTakesAll(s.queue, s.pending, s.core.requests, s.core.st);
    var events := Process(s.queue, s.pending, s.core.requests, s.core.st).events;
    assert (s.core.log + events)[|s.core.log|..] == events;
  }

  lemma FirstSettled(d: Descriptor, rest: seq<Descriptor>, queued: nat, id: nat, later: seq<Event<seq<byte>>>)
    requires TakesAll(rest, queued + |d.data| % d.element, later)
    ensures SettlesFirst(d, rest, queued, id, [Served(id, d.View())] + later)
  {
    hide TakesAll;
    ViewIsPrefix(d);
    RoundDown(|d.data|, d.element);
    var all := [Served(id, d.View())] + later;
    assert all[1..] == later;
  }

  lemma CommitSettles(v: Stream, d: Descriptor, queued: nat)
    requires v.core.st == Readable && AllPending(v.pending) && FrontOnly(v.pending) && FrontData(v.pending) == []
    requires NoEmptyChunk(v.queue) && |Flatten(v.queue)| == queued + |d.data| % d.element
    requires CommitThenProcess(v, d.(data := d.View())).Returns?
    ensures var u := CommitThenProcess(v, d.(data := d.View())).s;
            && v.core.requests != [] && v.core.log <= u.core.log
            && SettlesFirst(d, v.pending, queued, v.core.requests[0], u.core.log[|v.core.log|..])
  {
    ViewIsPrefix(d);
    hide ProcessDescriptors, TakesAll, Flatten, NoEmptyChunk, AllPending, FrontOnly, FrontData, SettlesFirst,
      Descriptor.View;
    var e := Served(v.core.requests[0], d.View());
    var w := v.(core := Settle(v.core, e).(requests := v.core.requests[1..]));
    ProcessingTakesAll(w);
    var log := ProcessDescriptors(w).s.core.log;
    FirstSettled(d, v.pending, queued, v.core.requests[0], log[|w.core.log|..]);
    assert log[|v.core.log|..] == [e] + log[|w.core.log|..];
  }


  lemma SatisfiedSettles(t: Stream)
    requires Answering(t) && t.core.kind == ByobReader && t.pending[0].kind == ByobReader
    requires t.pending[0].min <= t.pending[0].Filled() && FrontOnly(t.pending) && RespondReadable(t).Returns?
    ensures var u := RespondReadable(t).s;
            && RespondReadable(t).ok && t.core.log <= u.core.log && t.core.requests != []
            && SettlesFirst(t.pending[0], t.pending[1..], |Flatten(t.queue)|, t.core.requests[0],
                            u.core.log[|t.core.log|..])
  {
    TailQueued(t);
    SatisfiedCommits(t);
    FrontTail(t.pending);
    LineIsPending(t.pending[1..], t.core.kind);
    hide RespondReadable, TakenOff, SettlesFirst, Answering, NoEmptyChunk, Flatten, AllPending, FrontOnly, FrontData,
      CommitThenProcess, PullIfNeeded;
    assert t.core.st == Readable;
    CommitSettles(TakenOff(t), t.pending[0], |Flatten(t.queue)|);
    PullLeavesCore(CommitThenProcess(TakenOff(t), t.pending[0].(data := t.pending[0].View())).s);
  }

  lemma PullLeavesCore(s: Stream)
    ensures PullIfNeeded(s).core == s.core
  {
  }


  /** A view over a view's bytes is all of them. */
  lemma ViewIsPrefix(d: Descriptor)
    ensures d.(data := d.View()).View() == d.View() && d.View() <= d.data
    ensures |d.View()| == |d.data| - |d.data| % d.element
  {
    RoundDown(|d.data|, d.element);
  }

  /** The answer that completes a closed stream: each waiting BYOB read ends with the whole elements it holds. */
  lemma ClosedAnswerEnds(s: Stream)
    requires Base(s) && Ranked(s) && s.core.st == Closed && s.core.kind == ByobReader && s.slot == Live
    requires s.pending != [] && s.pending[0].rest != []
    ensures var r, n := Respond(s, []), |s.core.requests|;
            && r.Returns? && r.ok && n <= |s.pending| && r.s.pending == s.pending[n..]
            && r.s.core.requests == [] && |r.s.core.log| == |s.core.log| + n && s.core.log <= r.s.core.log
            && forall i :: 0 <= i < n ==>
                 && r.s.core.log[|s.core.log| + i] == Ended(s.core.requests[i], Some(s.pending[i].View()))
                 && WholeElements(|s.pending[i].View()|, s.pending[i], |s.pending[i].data|)
  {
    hide SettlesOnce, FollowsProtocol, Accounts, WellShaped, Unsatisfied, Evaluate;
    forall i | 0 <= i < |s.core.requests|
      ensures WholeElements(|s.pending[i].View()|, s.pending[i], |s.pending[i].data|)
    {
      RoundDown(|s.pending[i].data|, s.pending[i].element);
    }
  }

  /** Under any other reader an answer settles no read; to a detached read it puts the memory on the queue. */
  lemma OtherAnswersSettleNothing(s: Stream, bytes: seq<byte>)
    requires Base(s) && Ranked(s) && Accepted(s, bytes) && s.core.st == Readable && s.core.kind != ByobReader
    ensures var r, d := Respond(s, bytes), s.pending[0];
            && r.Returns? && r.ok && r.s.core == s.core
            && (Detached(s.pending) ==>
                  && r.s.queue == s.queue + [d.data + bytes + d.rest[|bytes|..]]
                  && r.s.pending == s.pending[0 := d.Absorb(bytes)])
  {
    WrittenIsAnswered(s, bytes);
    hide SettlesOnce, FollowsProtocol, Accounts, WellShaped, Unsatisfied, Evaluate, Respond;
  }

  /** What `respond` refuses, and the request that it uses up. */
  lemma RefusedAnswer(s: Stream, bytes: seq<byte>)
    requires Base(s) && Respond(s, bytes).Returns?
    ensures var r := Respond(s, bytes);
            && r.ok == (s.slot == Live && s.pending != [] && s.pending[0].rest != [] && s.core.st != Errored
                        && if s.core.st == Closed then bytes == []
                           else bytes != [] && |bytes| <= |s.pending[0].rest|)
            && (!r.ok ==> r.s == s.(slot := if s.slot == Live then Spent else s.slot))
  {
    hide SettlesOnce, FollowsProtocol, Accounts, WellShaped, Evaluate, Process, DrainEvents;
  }

  /** A new view is taken if it covers all of a descriptor that holds nothing; it then answers with all its bytes. */
  lemma ViewIsAnswer(s: Stream, view: seq<byte>, at: nat)
    requires Base(s) && Ranked(s)
    ensures var taken := s.core.st == Readable && AcceptedView(s, view, at);
            && (taken ==> RespondWithNewView(s, view, at) == Respond(s, view))
            && (!taken ==>
                  RespondWithNewView(s, view, at)
                  == Returns(s.(slot := if s.slot == Live then Spent else s.slot), false))
  {
    SpentIsRanked(s);
    hide Base, Ranked, RespondReadable;
  }

  // ---- Why reads fail ----------------------------------------------------------------------------

  lemma {:induction false} LoopFailsNone(queue: seq<seq<byte>>, pending: seq<Descriptor>, requests: seq<nat>, st: State)
    requires Process(queue, pending, requests, st).Done?
    ensures var events := Process(queue, pending, requests, st).events;
            forall i :: 0 <= i < |events| ==> !events[i].Failed?
    decreases |pending|
  {
    hide Flatten, Ready, CopyCount, FilledFrom, QueueAfter;
    if pending != [] && |Flatten(queue)| > 0 && Ready(|Flatten(queue)|, pending[0]) {
      LoopFailsNone(QueueAfter(queue, pending[0]), pending[1..], requests[1..], st);
    }
  }

  lemma ProcessingIsTold(s: Stream)
    requires FailuresAreTold(s.core) && ProcessDescriptors(s).Returns?
    ensures FailuresAreTold(ProcessDescriptors(s).s.core)
  {
    hide Process, FailuresAreTold;
    LoopFailsNone(s.queue, s.pending, s.core.requests, s.core.st);
    MoreIsTold(s.core, ProcessDescriptors(s).s.core, Process(s.queue, s.pending, s.core.requests, s.core.st).events);
  }

  lemma {:induction false} ServeIsTold(s: Stream, chunk: seq<byte>)
    requires FailuresAreTold(s.core) && Serve(s, chunk).Returns?
    ensures FailuresAreTold(Serve(s, chunk).s.core)
    decreases |s.core.requests|
  {
    hide Evaluate, ShouldCallPull;
    if s.core.requests != [] && s.size != 0 {
      var t := s.(core := s.core.(requests := s.core.requests[1..]),
                  queue := s.queue[1..], size := s.size - |s.queue[0]|);
      ServeIsTold(SettleWith(PullIfNeeded(t), Served(s.core.requests[0], s.queue[0])), chunk);
    }
  }

  lemma EnqueueIsTold(s: Stream, chunk: seq<byte>)
    requires FailuresAreTold(s.core) && Enqueue(s, chunk).Returns?
    ensures FailuresAreTold(Enqueue(s, chunk).s.core)
  {
    hide FailuresAreTold, ShiftDetached, Serve, ProcessDescriptors, Evaluate;
    if chunk != [] && CanCloseOrEnqueue(s) {
      var p := s.(produced := s.produced + chunk);
      ShiftLeavesLine(p);
      match s.core.kind {
        case DefaultReader => ServeIsTold(ShiftDetached(p), chunk);
        case ByobReader => ProcessingIsTold(PushChunk(ShiftDetached(p), chunk));
        case NoReader =>
      }
    }
  }

  lemma RespondReadableIsTold(s: Stream)
    requires FailuresAreTold(s.core) && s.pending != [] && RespondReadable(s).Returns?
    ensures FailuresAreTold(RespondReadable(s).s.core)
  {
    hide FailuresAreTold, ProcessDescriptors, Evaluate;
    var d := s.pending[0];
    if d.kind == NoReader {
      if s.core.kind == ByobReader { ProcessingIsTold(if d.Filled() > 0 then PushChunk(s, d.data + d.rest) else s); }
    } else if d.min <= d.Filled() && s.core.kind == ByobReader {
      var t := TakenOff(s);
      var e := CommitEvent(d.(data := d.View()), t.core.requests[0], t.core.st);
      var core := Settle(t.core, e).(requests := t.core.requests[1..]);
      MoreIsTold(t.core, core, [e]);
      ProcessingIsTold(t.(core := core));
    }
  }

  lemma AnswerIsTold(s: Stream, bytes: seq<byte>)
    requires FailuresAreTold(s.core) && s.pending != [] && RespondInternal(s, bytes).Returns?
    ensures FailuresAreTold(RespondInternal(s, bytes).s.core)
  {
    hide FailuresAreTold, RespondReadable, Evaluate;
    match s.core.st
    case Errored =>
    case Closed =>
      if bytes == [] && s.core.kind == ByobReader {
        MoreIsTold(s.core, RespondInternal(s, bytes).s.core, DrainEvents(s.pending, s.core.requests));
      }
    case Readable =>
      if bytes != [] && |bytes| <= |s.pending[0].rest| { RespondReadableIsTold(Written(s, bytes)); }
  }

  lemma ReadIsTold(s: Stream, op: Op)
    requires Base(s) && FailuresAreTold(s.core) && Possible(s, op) && Step(s, op).Returns?
    requires op.DefaultRead? || op.ByobRead?
    ensures FailuresAreTold(Step(s, op).s.core)
  {
    hide SettlesOnce, FollowsProtocol, Shapes, Flatten, NoEmptyChunk, Evaluate, Ready, CopyCount, FilledFrom,
      QueueAfter, FailuresAreTold;
    var id, reason := s.core.issued, StoredError(s.core);
    var t := Step(s, op).s.core;
    if t.log != s.core.log {
      var e := t.log[|s.core.log|];
      assert t.log == s.core.log + [e];
      MoreIsTold(s.core, t, [e]);
    } else {
      MoreIsTold(s.core, t, []);
    }
  }

  lemma StepIsTold(s: Stream, op: Op)
    requires Base(s) && FailuresAreTold(s.core) && Possible(s, op) && Step(s, op).Returns?
    ensures FailuresAreTold(Step(s, op).s.core)
  {
    SpentKeepsBase(s);
    assert s.core.st == Readable ==> s.core.error == None;
    hide Base, Evaluate, Fulfil, Reject, Enqueue, RespondInternal, ReadByob, ReadDefault, ShouldCallPull;
    match op
    case DefaultRead => ReadIsTold(s, op);
    case ByobRead(_, _, _, _, _) => ReadIsTold(s, op);
    case EnqueueChunk(chunk) => EnqueueIsTold(s, chunk);
    case Answer(bytes) =>
      if s.slot == Live && s.pending[0].rest != [] { AnswerIsTold(s.(slot := Spent), bytes); }
    case AnswerWithView(view, _) =>
      if s.slot == Live && s.pending != [] && RespondInternal(s.(slot := Spent), view).Returns? {
        AnswerIsTold(s.(slot := Spent), view);
      }
    case Release => BulkSettlingIsTold(s.core, ReaderReleased);
    case CancelStream => BulkSettlingIsTold(s.core, ReaderReleased);
    case CloseStream => BulkSettlingIsTold(s.core, PendingNotAligned);
    case ErrorStream(reason) => BulkSettlingIsTold(s.core, reason);
    case StartRejected(reason) => BulkSettlingIsTold(s.core, reason);
    case PullRejected(reason) => BulkSettlingIsTold(s.core, reason);
    case _ =>
  }
}
