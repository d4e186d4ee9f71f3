/** Exactly when a byte stream calls its source's `pull`, in every reachable state. */
module BytePulls {
  import opened Chunks
  import opened StreamCore
  import opened PullProtocol
  import opened PullInto
  import opened ByteStream
  import opened ByteLifecycle
  import opened ByteDelivery
  import opened ByteAnswers
  import opened ByteExact
  import opened ByteRanks
  import opened ByteOutcomes

  /** A read waits, or less is queued than the mark, on an open stream whose source has started. */
  predicate Due(s: Stream) {
    && s.core.st == Readable && !s.closeRequested && s.pull.started
    && (s.core.requests != [] || s.mark == Infinite || s.size as real < s.mark.level)
  }

  /** The answer finds its read detached, or brings it up to its minimum. */
  predicate Completing(s: Stream, written: nat)
    requires s.pending != []
  {
    s.core.st == Readable && (Detached(s.pending) || s.pending[0].min <= s.pending[0].Filled() + written)
  }

  /** The operations after which the controller looks at whether a pull is due. */
  predicate Evaluates(s: Stream, op: Op) {
    match op
    case StartFulfilled => true
    case PullFulfilled => s.pull.again
    case DefaultRead => s.core.kind == DefaultReader && s.core.st == Readable
    case ByobRead(_, _, _, len, min) =>
      s.core.kind == ByobReader && 0 < min <= len && s.core.st == Readable && s.pending == []
    case EnqueueChunk(chunk) => CanCloseOrEnqueue(s) && chunk != []
    case Answer(bytes) => Accepted(s, bytes) && Completing(s, |bytes|)
    case AnswerWithView(view, at) => AcceptedView(s, view, at) && Completing(s, |view|)
    case _ => false
  }

  /** A pull is under way when the operation looks; a fulfilled pull is over by then. */
  predicate Busy(s: Stream, op: Op) {
    s.pull.pulling && !op.PullFulfilled?
  }

  /** From `s` to `t` the source has been called once if a pull is due at the end, and else not. */
  predicate Moves(s: Stream, t: Stream, looks: bool, busy: bool) {
    var pulls := looks && Due(t) && !busy;
    && Calls(t.pull.trace) == Calls(s.pull.trace) + (if pulls then 1 else 0)
    && t.pull.pulling == (pulls || busy)
    && t.pull.again == (busy && (s.pull.again || (looks && Due(t))))
  }

  /** A chunk comes while default reads wait although bytes are queued, or are put back on the queue by it. */
  predicate ServesFromQueue(s: Stream, op: Op) {
    && op.EnqueueChunk? && CanCloseOrEnqueue(s) && op.chunk != []
    && s.core.kind == DefaultReader && s.core.requests != [] && Queued(s) + Requeued(s) > 0
  }

  /**
   The source is called once if the operation looks, a pull is due then, and none is under way; if one
   is under way it is remembered that another is wanted. In no other case is it called.
   */
  lemma PulledIff(s: Stream, op: Op)
    requires Base(s) && Ranked(s) && Possible(s, op) && Step(s, op).Returns? && !ServesFromQueue(s, op)
    ensures Moves(s, Step(s, op).s, Evaluates(s, op), Busy(s, op))
  {
    AgainIsBusy(s);
    SpentIsRanked(s);
    hide Base, Ranked, Moves, Due, Evaluates, Enqueue, RespondInternal, ReadByob, ReadDefault, Evaluate, Fulfil, Reject,
      CloseCore, ErrorCore, ReleaseCore, ServesFromQueue, Accepted;
    match op
    case StartFulfilled => ReactionMoves(s, op);
    case PullFulfilled => ReactionMoves(s, op);
    case PullRejected(_) => ReactionMoves(s, op);
    case DefaultRead => DefaultReadMoves(s);
    case ByobRead(memory, offset, element, len, min) => ByobReadMoves(s, memory, offset, element, len, min);
    case EnqueueChunk(chunk) => EnqueueMoves(s, chunk);
    case Answer(bytes) => AnswerMoves(s, bytes);
    case AnswerWithView(view, at) => ViewMoves(s, view, at);
    case _ => ReactionMoves(s, op);
  }

  /** The reactions to promises, and the operations that never look. */
  lemma ReactionMoves(s: Stream, op: Op)
    requires Base(s) && Possible(s, op) && Step(s, op).Returns?
    requires !op.DefaultRead? && !op.ByobRead? && !op.EnqueueChunk? && !op.Answer? && !op.AnswerWithView?
    ensures Moves(s, Step(s, op).s, Evaluates(s, op), Busy(s, op))
  {
    AgainIsBusy(s);
    if op.StartFulfilled? {
      hide Base, Moves, Due, Evaluate, ShouldCallPull;
      LookingMoves(s, s.(pull := s.pull.(started := true, settled := true)));
    } else if op.PullFulfilled? {
      hide Base, Moves, Due, Evaluate, ShouldCallPull;
      FulfilMoves(s);
    } else {
      PullIsLeft(s, op);
      hide Base, Moves, Due, Step;
      Unmoved(s, Step(s, op).s);
    }
  }

  lemma PullIsLeft(s: Stream, op: Op)
    requires Base(s) && Possible(s, op) && Step(s, op).Returns? && !op.StartFulfilled? && !op.PullFulfilled?
    requires !op.DefaultRead? && !op.ByobRead? && !op.EnqueueChunk? && !op.Answer? && !op.AnswerWithView?
    ensures var t := Step(s, op).s;
            && t.pull.pulling == s.pull.pulling && t.pull.again == s.pull.again
            && Calls(t.pull.trace) == Calls(s.pull.trace)
  {
    AgainIsBusy(s);
    hide Base, FollowsProtocol, Calls, CloseCore, ErrorCore, ReleaseCore;
    if op.PullRejected? { RejectFollowsProtocol(s.pull); }
  }


  lemma AgainIsBusy(s: Stream)
    requires Base(s)
    ensures (s.pull.again ==> s.pull.pulling) && FollowsProtocol(s.pull)
    ensures s.core.requests != [] ==> s.core.kind != NoReader
    ensures s.closeRequested ==> s.core.st != Readable
  {
    hide SettlesOnce, Accounts, Shapes, OneAtATime, CalledWhenAllowed, InFlight, WantedSinceCall;
  }

  lemma Unmoved(s: Stream, t: Stream)
    requires t.pull.pulling == s.pull.pulling && t.pull.again == s.pull.again
    requires Calls(t.pull.trace) == Calls(s.pull.trace) && (s.pull.again ==> s.pull.pulling)
    ensures Moves(s, t, false, s.pull.pulling)
  {
    hide Calls;
  }

  /** `u` has the flags of `s`; looking at whether a pull is due in it. */
  lemma LookingMoves(s: Stream, u: Stream)
    requires u.pull.pulling == s.pull.pulling && u.pull.again == s.pull.again && u.pull.trace == s.pull.trace
    requires (s.pull.again ==> s.pull.pulling) && (u.core.requests != [] ==> u.core.kind != NoReader)
    ensures Moves(s, PullIfNeeded(u), true, s.pull.pulling)
  {
    hide Calls;
    EvaluateCalls(u.pull, u.core.st, ShouldCallPull(u));
  }

  lemma SettlingMoves(s: Stream, t: Stream, e: Event<seq<byte>>)
    requires Moves(s, t, true, s.pull.pulling)
    ensures Moves(s, SettleWith(t, e), true, s.pull.pulling)
  {
    hide Calls;
  }

  lemma FulfilMoves(s: Stream)
    requires Base(s) && s.pull.outstanding
    ensures Moves(s, Step(s, PullFulfilled).s, s.pull.again, false)
  {
    AgainIsBusy(s);
    hide Base, FollowsProtocol, Calls;
    FulfilCalls(s.pull, s.core.st, ShouldCallPull(s));
  }

  // ---- Reads -------------------------------------------------------------------------------------

  /** A default read on an open stream, before it looks: the entry taken, or the read waiting. */
  function Reading(s: Stream): Stream {
    var t := s.(core := Issue(s.core), asks := s.asks + [DefaultAsk]);
    if s.size > 0 then
      if s.queue == [] then t else t.(queue := s.queue[1..], size := s.size - |s.queue[0]|)
    else
      var u := if s.auto == 0 then t else t.(pending := t.pending + [AutoDescriptor(s.auto)]);
      u.(core := u.core.(requests := u.core.requests + [s.core.issued]))
  }

  lemma DefaultReadLooks(s: Stream)
    requires Base(s) && ReadDefault(s).Returns? && Evaluates(s, DefaultRead)
    ensures var t := PullIfNeeded(Reading(s));
            && (s.size > 0 ==> s.queue != [] && ReadDefault(s).s == SettleWith(t, Served(s.core.issued, s.queue[0])))
            && (s.size <= 0 ==> ReadDefault(s).s == t)
            && Reading(s).pull == s.pull && Reading(s).core.kind == DefaultReader
  {
    hide SettlesOnce, FollowsProtocol, Shapes, Accounts, PullIfNeeded;
  }

  lemma DefaultReadMoves(s: Stream)
    requires Base(s) && ReadDefault(s).Returns?
    ensures Moves(s, ReadDefault(s).s, Evaluates(s, DefaultRead), s.pull.pulling)
  {
    AgainIsBusy(s);
    if Evaluates(s, DefaultRead) {
      DefaultReadLooks(s);
      hide Base, Moves, Reading, ReadDefault, PullIfNeeded;
      LookingMoves(s, Reading(s));
      if s.size > 0 { SettlingMoves(s, PullIfNeeded(Reading(s)), Served(s.core.issued, s.queue[0])); }
    } else {
      hide Base, Moves, Calls;
      Unmoved(s, ReadDefault(s).s);
    }
  }


  lemma ByobReadMoves(s: Stream, memory: seq<byte>, offset: nat, element: Positive, len: nat, min: nat)
    requires Base(s) && |memory| == len * element && ReadByob(s, memory, offset, element, len, min).Returns?
    ensures Moves(s, ReadByob(s, memory, offset, element, len, min).s,
                  Evaluates(s, ByobRead(memory, offset, element, len, min)), s.pull.pulling)
  {
    AgainIsBusy(s);
    hide Base, FollowsProtocol, Calls, Evaluate, Moves, ReadFromQueue, ShouldCallPull;
    var id := s.core.issued;
    var t := s.(core := Issue(s.core), asks := s.asks + [ByobAsk(element, min * element, |memory|)]);
    var d := Descriptor([], memory, offset, min * element, element, ByobReader);
    if !Evaluates(s, ByobRead(memory, offset, element, len, min)) {
      Unmoved(s, ReadByob(s, memory, offset, element, len, min).s);
    } else if s.size > 0 {
      ReadFromQueueMoves(s, t, d, id);
    } else {
      LookingMoves(s, AddPending(t, d, id));
    }
  }

  lemma ReadFromQueueMoves(s: Stream, t: Stream, d: Descriptor, id: nat)
    requires t.pull == s.pull && !t.closeRequested && t.core.kind == ByobReader && (s.pull.again ==> s.pull.pulling)
    requires ReadFromQueue(t, d, id).Returns?
    ensures Moves(s, ReadFromQueue(t, d, id).s, true, s.pull.pulling)
  {
    hide Calls, Evaluate, Moves, Flatten, CopyCount, Ready, FilledFrom, QueueAfter, ShouldCallPull;
    var u := t.(queue := QueueAfter(t.queue, d), size := t.size - CopyCount(|Flatten(t.queue)|, d));
    if Ready(|Flatten(t.queue)|, d) {
      LookingMoves(s, u);
      SettlingMoves(s, PullIfNeeded(u), Served(id, FilledFrom(t.queue, d).View()));
    } else {
      LookingMoves(s, AddPending(u, FilledFrom(t.queue, d), id));
    }
  }

  // ---- Chunks ------------------------------------------------------------------------------------

  lemma LoopLeavesPull(s: Stream)
    requires ProcessDescriptors(s).Returns?
    ensures ProcessDescriptors(s).s.pull == s.pull && ProcessDescriptors(s).s.core.kind == s.core.kind
  {
    hide Process;
  }

  lemma ShiftLeavesPull(s: Stream)
    ensures var t := ShiftDetached(s); t.pull == s.pull && t.core == s.core && t.closeRequested == s.closeRequested
  {
  }

  lemma EnqueueMoves(s: Stream, chunk: seq<byte>)
    requires Base(s) && Enqueue(s, chunk).Returns? && !ServesFromQueue(s, EnqueueChunk(chunk))
    ensures Moves(s, Enqueue(s, chunk).s, Evaluates(s, EnqueueChunk(chunk)), s.pull.pulling)
  {
    AgainIsBusy(s);
    ShiftedSize(s, chunk);
    ProducingKeepsBase(s, chunk);
    hide Base, FollowsProtocol, Calls, Evaluate, Moves, ShiftDetached, ProcessDescriptors, Serve, Requeued, Queued;
    if CanCloseOrEnqueue(s) && chunk != [] {
      var p := s.(produced := s.produced + chunk);
      var t := ShiftDetached(p);
      ShiftLeavesPull(p);
      ShiftDetachedKeepsBase(p);
      match s.core.kind {
        case ByobReader =>
          LoopLeavesPull(PushChunk(t, chunk));
          LookingMoves(s, ProcessDescriptors(PushChunk(t, chunk)).s);
        case NoReader => LookingMoves(s, PushChunk(t, chunk));
        case DefaultReader =>
          SizeIsQueued(t);
          ServesAtOnceLeavesPull(t, chunk);
          LookingMoves(s, Serve(t, chunk).s);
      }
    } else {
      Unmoved(s, s);
    }
  }

  lemma SizeIsQueued(s: Stream)
    requires Base(s)
    ensures s.size == Queued(s)
  {
    hide SettlesOnce, FollowsProtocol, Shapes, Flatten, NoEmptyChunk;
  }

  lemma ServesAtOnceLeavesPull(s: Stream, chunk: seq<byte>)
    requires s.core.kind == DefaultReader && (s.core.requests == [] || s.size == 0)
    ensures var r := Serve(s, chunk); r.Returns? && r.s.pull == s.pull && r.s.core.kind == DefaultReader
  {
  }

  // ---- Answers -----------------------------------------------------------------------------------

  lemma ReadableMoves(s: Stream, t: Stream)
    requires t.pull == s.pull && t.pending != [] && (s.pull.again ==> s.pull.pulling)
    requires (t.core.requests != [] ==> t.core.kind != NoReader) && RespondReadable(t).Returns?
    ensures var d := t.pending[0];
            Moves(s, RespondReadable(t).s, d.kind == NoReader || d.min <= d.Filled(), s.pull.pulling)
  {
    hide Calls, Evaluate, Moves, ProcessDescriptors, ShouldCallPull;
    var d := t.pending[0];
    if d.kind == NoReader {
      var u := if d.Filled() > 0 then PushChunk(t, d.data + d.rest) else t;
      if t.core.kind == ByobReader {
        LoopLeavesPull(u);
        LookingMoves(s, ProcessDescriptors(u).s);
      } else {
        LookingMoves(s, u);
      }
    } else if d.Filled() < d.min {
      Unmoved(s, t);
    } else if t.core.kind == ByobReader {
      SatisfiedCommits(t);
      TakenOffLeavesPull(t);
      CommitMoves(s, TakenOff(t), d.(data := d.View()));
    } else {
      TakenOffLeavesPull(t);
      LookingMoves(s, TakenOff(t));
    }
  }

  lemma TakenOffLeavesPull(s: Stream)
    requires s.pending != []
    ensures TakenOff(s).pull == s.pull && TakenOff(s).core == s.core
  {
  }

  lemma CommitMoves(s: Stream, t: Stream, d: Descriptor)
    requires t.pull == s.pull && t.core.kind == ByobReader && (s.pull.again ==> s.pull.pulling)
    requires CommitThenProcess(t, d).Returns?
    ensures Moves(s, PullIfNeeded(CommitThenProcess(t, d).s), true, s.pull.pulling)
  {
    hide Moves, ProcessDescriptors, Evaluate, ShouldCallPull, CommitEvent;
    var e := CommitEvent(d, t.core.requests[0], t.core.st);
    var u := t.(core := Settle(t.core, e).(requests := t.core.requests[1..]));
    LoopLeavesPull(u);
    LookingMoves(s, ProcessDescriptors(u).s);
  }

  lemma InternalMoves(s: Stream, bytes: seq<byte>)
    requires Base(s) && Ranked(s) && s.pending != [] && RespondInternal(s.(slot := Spent), bytes).Returns?
    ensures var taken := bytes != [] && |bytes| <= |s.pending[0].rest|;
            Moves(s, RespondInternal(s.(slot := Spent), bytes).s, taken && Completing(s, |bytes|), s.pull.pulling)
  {
    AgainIsBusy(s);
    hide Base, Ranked, Moves, RespondReadable, RespondClosed;
    match s.core.st
    case Errored => Unmoved(s, s.(slot := Spent));
    case Closed =>
      if bytes == [] {
        ClosedMoves(s.(slot := Vacant));
      } else {
        Unmoved(s, s.(slot := Spent));
      }
    case Readable =>
      if bytes != [] && |bytes| <= |s.pending[0].rest| {
        assert Written(s.(slot := Spent), bytes) == Written(s, bytes);
        ReadableMoves(s, Written(s, bytes));
      } else {
        Unmoved(s, s.(slot := Spent));
      }
  }

  lemma ClosedMoves(s: Stream)
    requires s.core.st == Closed && s.pending != [] && RespondClosed(s).Returns?
    requires s.pull.again ==> s.pull.pulling
    ensures Moves(s, RespondClosed(s).s, false, s.pull.pulling)
  {
    hide Calls, DrainEvents;
  }

  lemma AnswerMoves(s: Stream, bytes: seq<byte>)
    requires Base(s) && Ranked(s) && Respond(s, bytes).Returns?
    ensures Moves(s, Respond(s, bytes).s, Evaluates(s, Answer(bytes)), s.pull.pulling)
  {
    AgainIsBusy(s);
    SpentIsRanked(s);
    hide Base, Ranked, Moves, RespondInternal, Completing;
    if s.slot == Live && s.pending[0].rest != [] {
      InternalMoves(s, bytes);
    } else {
      Unmoved(s, Respond(s, bytes).s);
    }
  }

  lemma ViewMoves(s: Stream, view: seq<byte>, at: nat)
    requires Base(s) && Ranked(s) && RespondWithNewView(s, view, at).Returns?
    ensures Moves(s, RespondWithNewView(s, view, at).s, Evaluates(s, AnswerWithView(view, at)), s.pull.pulling)
  {
    AgainIsBusy(s);
    SpentIsRanked(s);
    hide Base, Ranked, Moves, RespondInternal, Completing;
    if s.slot == Live {
      if RespondInternal(s.(slot := Spent), view).Returns? { InternalMoves(s, view); }
      Unmoved(s, s.(slot := Spent));
    } else {
      Unmoved(s, s);
    }
  }

  // ---- Chunks for reads that wait although bytes are queued --------------------------------------

  /** The oldest waiting read has taken the front of the queue. */
  function FirstServed(s: Stream): Stream
    requires s.core.requests != [] && s.queue != []
  {
    s.(core := s.core.(requests := s.core.requests[1..]), queue := s.queue[1..], size := s.size - |s.queue[0]|)
  }

  /** Nothing calls the source while reads are served if it is being pulled or may not be. */
  lemma {:induction false} ServingRests(s: Stream, chunk: seq<byte>)
    requires Serve(s, chunk).Returns?
    requires s.pull.pulling || s.core.st != Readable || s.closeRequested || !s.pull.started
    ensures var t := Serve(s, chunk).s;
            && Calls(t.pull.trace) == Calls(s.pull.trace) && t.pull.pulling == s.pull.pulling
            && t.core.st == s.core.st && t.closeRequested == s.closeRequested && t.pull.started == s.pull.started
    decreases |s.core.requests|
  {
    hide Calls;
    if s.core.requests != [] && s.size != 0 {
      var u := FirstServed(s);
      EvaluateCalls(u.pull, u.core.st, ShouldCallPull(u));
      ServingRests(SettleWith(PullIfNeeded(u), Served(s.core.requests[0], s.queue[0])), chunk);
    }
  }

  lemma ServingCalls(s: Stream, chunk: seq<byte>)
    requires Serve(s, chunk).Returns? && s.core.kind == DefaultReader && s.core.requests != [] && s.size > 0
    ensures s.queue != []
    ensures var t, called := Serve(s, chunk).s, !s.pull.pulling && Due(FirstServed(s));
            && Calls(t.pull.trace) == Calls(s.pull.trace) + (if called then 1 else 0)
            && t.pull.pulling == (s.pull.pulling || called)
  {
    hide Calls;
    var u := FirstServed(s);
    EvaluateCalls(u.pull, u.core.st, ShouldCallPull(u));
    var v := SettleWith(PullIfNeeded(u), Served(s.core.requests[0], s.queue[0]));
    if u.pull.pulling || !CanCloseOrEnqueue(u) || !u.pull.started || Due(u) {
      ServingRests(v, chunk);
    } else {
      assert v.core.requests == [];
    }
  }

  /** There the source is called once if a pull is due at the end, or was once the oldest read had been served. */
  lemma ServingPulls(s: Stream, chunk: seq<byte>)
    requires Base(s) && ServesFromQueue(s, EnqueueChunk(chunk)) && Enqueue(s, chunk).Returns?
    ensures var t, u := Enqueue(s, chunk).s, ShiftDetached(s);
            && u.core == s.core && u.queue != []
            && Calls(t.pull.trace) ==
               Calls(s.pull.trace) + (if !s.pull.pulling && (Due(FirstServed(u)) || Due(t)) then 1 else 0)
  {
    AgainIsBusy(s);
    ShiftedSize(s, chunk);
    ProducingKeepsBase(s, chunk);
    var p := s.(produced := s.produced + chunk);
    var u := ShiftDetached(p);
    ShiftLeavesPull(p);
    ShiftIgnoresProduced(s, chunk);
    ShiftDetachedKeepsBase(p);
    SizeIsQueued(u);
    hide Base, Calls, FollowsProtocol, ShiftDetached, Serve, Requeued, Queued, Evaluate;
    ServingCalls(u, chunk);
    var v := Serve(u, chunk).s;
    ServingKeepsKind(u, chunk);
    EvaluateCalls(v.pull, v.core.st, ShouldCallPull(v));
  }

  lemma ShiftIgnoresProduced(s: Stream, chunk: seq<byte>)
    ensures ShiftDetached(s.(produced := s.produced + chunk)) == ShiftDetached(s).(produced := s.produced + chunk)
  {
  }

  lemma {:induction false} ServingKeepsKind(s: Stream, chunk: seq<byte>)
    requires Serve(s, chunk).Returns?
    ensures var t := Serve(s, chunk).s; t.core.kind == s.core.kind && t.mark == s.mark
    decreases |s.core.requests|
  {
    hide Evaluate, ShouldCallPull;
    if s.core.requests != [] && s.size != 0 {
      ServingKeepsKind(SettleWith(PullIfNeeded(FirstServed(s)), Served(s.core.requests[0], s.queue[0])), chunk);
    }
  }
}
