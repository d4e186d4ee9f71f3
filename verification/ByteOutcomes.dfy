/** Exactly when a call on a byte stream panics or hangs, told from the state before it. */
module ByteOutcomes {
  import opened Chunks
  import opened StreamCore
  import opened PullProtocol
  import opened PullInto
  import opened ByteStream
  import opened ByteLifecycle
  import opened ByteDelivery
  import opened ByteAnswers
  import opened ByteExact
  import opened ByteRanks

  // ---- The processing loop -----------------------------------------------------------------------

  /** With `n` bytes queued the loop makes more of these reads ready than there are requests. */
  predicate Overruns(n: nat, pending: seq<Descriptor>, requests: nat)
    decreases |pending|
  {
    && pending != [] && n > 0 && Ready(n, pending[0])
    && (requests == 0 || Overruns(n - CopyCount(n, pending[0]), pending[1..], requests - 1))
  }

  /**
   With `n` bytes queued the loop comes to a read that it fills, finds unready, and has bytes left,
   and there are requests for the reads it settles before that.
   */
  predicate Stalls(n: nat, pending: seq<Descriptor>, requests: nat)
    decreases |pending|
  {
    pending != [] && n > 0 &&
    if Ready(n, pending[0]) then
      requests > 0 && Stalls(n - CopyCount(n, pending[0]), pending[1..], requests - 1)
    else CopyCount(n, pending[0]) < n
  }

  lemma {:induction false} ProcessOutcome(
      queue: seq<seq<byte>>, pending: seq<Descriptor>, requests: seq<nat>, st: State)
    requires AllPending(pending) && NoEmptyChunk(queue)
    ensures var r := Process(queue, pending, requests, st);
            && (r.Spins? <==> Stalls(|Flatten(queue)|, pending, |requests|))
            && (r.Panics? <==> Overruns(|Flatten(queue)|, pending, |requests|))
    decreases |pending|
  {
    hide Flatten, Ready, CopyCount, FilledFrom, QueueAfter, NoEmptyChunk, WellShaped, Unsatisfied, CommitEvent;
    if pending != [] && |Flatten(queue)| > 0 {
      var d := pending[0];
      FillFacts(queue, d);
      FillMovesPrefix(queue, d);
      LeftOver(queue, d);
      if Ready(|Flatten(queue)|, d) && requests != [] {
        ProcessOutcome(QueueAfter(queue, d), pending[1..], requests[1..], st);
      }
    }
  }

  /** Reads that left room above their minimum never stall. */
  lemma {:induction false} RoomNeverStalls(n: nat, pending: seq<Descriptor>, requests: nat)
    requires AllPending(pending) && RoomAboveMin(pending)
    ensures !Stalls(n, pending, requests)
    decreases |pending|
  {
    hide Ready, CopyCount, WellShaped, Unsatisfied;
    if pending != [] && n > 0 && requests > 0 {
      FillArithmetic(n, pending[0]);
      RoomNeverStalls(n - CopyCount(n, pending[0]), pending[1..], requests - 1);
    } else if pending != [] && n > 0 {
      FillArithmetic(n, pending[0]);
    }
  }

  /** With a request for every read the loop cannot overrun them. */
  lemma {:induction false} EnoughRequests(n: nat, pending: seq<Descriptor>, requests: nat)
    requires |pending| <= requests
    ensures !Overruns(n, pending, requests)
    decreases |pending|
  {
    hide Ready, CopyCount;
    if pending != [] && n > 0 && Ready(n, pending[0]) {
      assert Overruns(n, pending, requests) ==> CopyCount(n, pending[0]) <= n;
      EnoughRequests(n - CopyCount(n, pending[0]), pending[1..], requests - 1);
    }
  }

  lemma ProcessDecides(s: Stream)
    ensures ProcessDescriptors(s).Panic? <==> Process(s.queue, s.pending, s.core.requests, s.core.st).Panics?
    ensures ProcessDescriptors(s).Hang? <==> Process(s.queue, s.pending, s.core.requests, s.core.st).Spins?
  {
    hide Process;
  }

  /** The number of bytes queued, which is `size` in every reachable state. */
  function Queued(s: Stream): nat {
    |Flatten(s.queue)|
  }

  // ---- Answers -----------------------------------------------------------------------------------

  /**
   An answer of `written` bytes fails an `unwrap`: more reads are settled than there are requests. A
   detached read, queued again as a whole, takes the first request if it has room above its minimum;
   a read of the present reader takes it once it is satisfied, and its unaligned tail is queued.
   */
  predicate AnswerPanics(s: Stream, written: nat)
    requires s.pending != []
  {
    var d, waiting := s.pending[0], |s.core.requests|;
    var filled := d.Filled() + written;
    && s.core.st == Readable && s.core.kind == ByobReader
    && if Detached(s.pending)
       then d.min < d.Length() && (waiting == 0 || Overruns(Queued(s) + filled, s.pending[1..], waiting - 1))
       else d.min <= filled
            && (waiting == 0 || Overruns(Queued(s) + filled % d.element, s.pending[1..], waiting - 1))
  }

  /**
   An answer of `written` bytes hangs: a detached read has no room above its minimum, or what is
   queued again stalls at a later read.
   */
  predicate AnswerHangs(s: Stream, written: nat)
    requires s.pending != []
  {
    var d, waiting := s.pending[0], |s.core.requests|;
    var filled := d.Filled() + written;
    && s.core.st == Readable && s.core.kind == ByobReader
    && if Detached(s.pending)
       then d.min == d.Length() || (waiting > 0 && Stalls(Queued(s) + filled, s.pending[1..], waiting - 1))
       else d.min <= filled && waiting > 0
            && Stalls(Queued(s) + filled % d.element, s.pending[1..], waiting - 1)
  }

  lemma DetachedAnswer(s: Stream)
    requires Answering(s) && s.pending[0].kind == NoReader && s.core.kind == ByobReader
    ensures var r := RespondReadable(s);
            var d, n, waiting := s.pending[0], Queued(s), |s.core.requests|;
            && (r.Panic? <==>
                (d.min < d.Length() && (waiting == 0 || Overruns(n + d.Filled(), s.pending[1..], waiting - 1))))
            && (r.Hang? <==>
                (d.min == d.Length() || (waiting > 0 && Stalls(n + d.Filled(), s.pending[1..], waiting - 1))))
  {
    hide Process, WellShaped, Unsatisfied, NoEmptyChunk, Flatten, Evaluate, Lined, QueueAfter, CopyCount, Stalls,
      Overruns;
    var d := s.pending[0];
    DetachedGoesFirst(s.queue, d, s.pending[1..], s.core.requests);
    assert [d] + s.pending[1..] == s.pending;
    LineIsPending(s.pending[1..], ByobReader);
    ProcessDecides(PushChunk(s, d.data + d.rest));
    if s.core.requests != [] {
      ProcessOutcome(QueueAfter(s.queue + [d.data + d.rest], d), s.pending[1..], s.core.requests[1..], Readable);
    }
  }

  lemma AttachedAnswer(s: Stream)
    requires Answering(s) && s.pending[0].kind != NoReader && s.core.kind == ByobReader
    requires s.pending[0].min <= s.pending[0].Filled()
    ensures var r := RespondReadable(s);
            var d, waiting := s.pending[0], |s.core.requests|;
            var n := Queued(s) + d.Filled() % d.element;
            && (r.Panic? <==> waiting == 0 || Overruns(n, s.pending[1..], waiting - 1))
            && (r.Hang? <==> waiting > 0 && Stalls(n, s.pending[1..], waiting - 1))
  {
    TailQueued(s);
    LineIsPending(s.pending[1..], s.core.kind);
    SatisfiedCommits(s);
    hide Answering, RespondReadable, TakenOff, Process, AllPending, NoEmptyChunk, Flatten, Evaluate, CommitEvent,
      Stalls, Overruns;
    var d, t := s.pending[0], TakenOff(s);
    if s.core.requests != [] {
      var e := CommitEvent(d.(data := d.View()), t.core.requests[0], t.core.st);
      var u := t.(core := Settle(t.core, e).(requests := t.core.requests[1..]));
      ProcessDecides(u);
      ProcessOutcome(u.queue, u.pending, u.core.requests, u.core.st);
    }
  }

  lemma UnsatisfiedReturns(s: Stream)
    requires s.pending != [] && s.pending[0].kind != NoReader && s.pending[0].Filled() < s.pending[0].min
    ensures RespondReadable(s).Returns?
  {
  }


  lemma OthersReturn(s: Stream)
    requires s.pending != [] && s.core.kind != ByobReader
    ensures RespondReadable(s).Returns?
  {
    hide Evaluate;
  }

  lemma ReadableOutcome(s: Stream, bytes: seq<byte>)
    requires Base(s) && Ranked(s) && s.core.st == Readable && s.pending != []
    requires bytes != [] && |bytes| <= |s.pending[0].rest|
    ensures var r := RespondReadable(Written(s, bytes));
            && (r.Panic? <==> AnswerPanics(s, |bytes|))
            && (r.Hang? <==> AnswerHangs(s, |bytes|))
  {
    hide RespondReadable, Stalls, Overruns, Lined, SettlesOnce, FollowsProtocol, Shapes, Flatten, NoEmptyChunk;
    var t := Written(s, bytes);
    WrittenIsAnswering(s, bytes);
    assert t.pending[0].Length() == s.pending[0].Length() && t.pending[1..] == s.pending[1..];
    if s.core.kind != ByobReader {
      OthersReturn(t);
    } else if Detached(s.pending) {
      DetachedAnswer(t);
    } else if t.pending[0].min <= t.pending[0].Filled() {
      AttachedAnswer(t);
    } else {
      UnsatisfiedReturns(t);
    }
  }

  lemma ClosedReturns(s: Stream)
    requires Ranked(s) && s.pending != []
    ensures RespondClosed(s).Returns?
  {
    hide Lined, Evaluate, DrainEvents;
  }

  lemma InternalOutcome(s: Stream, bytes: seq<byte>)
    requires Base(s) && Ranked(s) && s.pending != []
    ensures var r := RespondInternal(s.(slot := Spent), bytes);
            var taken := bytes != [] && |bytes| <= |s.pending[0].rest|;
            && (r.Panic? <==> taken && AnswerPanics(s, |bytes|))
            && (r.Hang? <==> taken && AnswerHangs(s, |bytes|))
  {
    hide Base, Lined, RespondReadable, RespondClosed, Stalls, Overruns;
    match s.core.st
    case Errored =>
    case Closed => ClosedReturns(s.(slot := Vacant));
    case Readable =>
      if bytes != [] && |bytes| <= |s.pending[0].rest| {
        assert Written(s.(slot := Spent), bytes) == Written(s, bytes);
        ReadableOutcome(s, bytes);
      }
  }

  /** `respond` panics exactly on AnswerPanics and hangs exactly on AnswerHangs, if it is not refused. */
  lemma RespondOutcome(s: Stream, bytes: seq<byte>)
    requires Base(s) && Ranked(s)
    ensures var r := Respond(s, bytes);
            && (r.Panic? <==> Accepted(s, bytes) && AnswerPanics(s, |bytes|))
            && (r.Hang? <==> Accepted(s, bytes) && AnswerHangs(s, |bytes|))
  {
    SpentIsRanked(s);
    hide Base, Ranked, AnswerPanics, AnswerHangs, RespondInternal;
    if s.slot == Live && s.pending[0].rest != [] {
      InternalOutcome(s, bytes);
    }
  }

  /** A view that respond_with_new_view does not refuse: it covers a descriptor not yet filled. */
  predicate AcceptedView(s: Stream, view: seq<byte>, at: nat) {
    && s.slot == Live && s.pending != [] && view != []
    && at == s.pending[0].offset + s.pending[0].Filled()
    && |view| == s.pending[0].Length() && s.pending[0].data == []
  }

  lemma ViewOutcome(s: Stream, view: seq<byte>, at: nat)
    requires Base(s) && Ranked(s)
    ensures var r := RespondWithNewView(s, view, at);
            && (r.Panic? <==> AcceptedView(s, view, at) && AnswerPanics(s, |view|))
            && (r.Hang? <==> AcceptedView(s, view, at) && AnswerHangs(s, |view|))
  {
    SpentIsRanked(s);
    hide Base, Ranked, Stalls, Overruns, RespondInternal;
    if s.slot == Live {
      InternalOutcome(s, view);
    }
  }

  // ---- Chunks and reads --------------------------------------------------------------------------

  /** How many bytes a detached front read puts on the queue when a chunk arrives: its whole memory. */
  function Requeued(s: Stream): nat {
    if Detached(s.pending) && s.pending[0].data != [] then s.pending[0].Length() else 0
  }

  predicate ForByobReads(s: Stream, chunk: nat) {
    CanCloseOrEnqueue(s) && s.core.kind == ByobReader && chunk > 0
  }

  /** A chunk makes more reads of the BYOB reader ready than it has requests. */
  predicate EnqueuePanics(s: Stream, chunk: nat) {
    && ForByobReads(s, chunk)
    && Overruns(Queued(s) + Requeued(s) + chunk, Attached(s.pending), |s.core.requests|)
  }

  /** A chunk stalls at a read of the BYOB reader. */
  predicate EnqueueHangs(s: Stream, chunk: nat) {
    && ForByobReads(s, chunk)
    && Stalls(Queued(s) + Requeued(s) + chunk, Attached(s.pending), |s.core.requests|)
  }

  lemma EnqueueOutcome(s: Stream, chunk: seq<byte>)
    requires Base(s) && Ranked(s)
    ensures Enqueue(s, chunk).Panic? <==> EnqueuePanics(s, |chunk|)
    ensures Enqueue(s, chunk).Hang? <==> EnqueueHangs(s, |chunk|)
  {
    hide Base, Lined, Stalls, Overruns, ShiftDetached, Requeued, ProcessDescriptors, Serve;
    if chunk != [] && CanCloseOrEnqueue(s) {
      var p := s.(produced := s.produced + chunk);
      var t := ShiftDetached(p);
      ProducingKeepsBase(s, chunk);
      ShiftDetachedKeepsBase(p);
      ShiftLeavesLine(p);
      match s.core.kind {
        case ByobReader => ShiftedSize(s, chunk); ChunkForByob(t, chunk);
        case DefaultReader => ServeKeepsBase(t, chunk);
        case NoReader =>
      }
    }
  }

  lemma ShiftedSize(s: Stream, chunk: seq<byte>)
    ensures Queued(ShiftDetached(s.(produced := s.produced + chunk))) == Queued(s) + Requeued(s)
  {
    hide Flatten;
    if s.pending != [] {
      FlattenPush(s.queue, s.pending[0].data + s.pending[0].rest);
    }
  }

  lemma ChunkForByob(t: Stream, chunk: seq<byte>)
    requires chunk != [] && t.core.st == Readable && Base(t) && Lined(t.pending, t.core.kind)
    ensures ProcessDescriptors(PushChunk(t, chunk)).Panic? <==>
            Overruns(Queued(t) + |chunk|, t.pending, |t.core.requests|)
    ensures ProcessDescriptors(PushChunk(t, chunk)).Hang? <==>
            Stalls(Queued(t) + |chunk|, t.pending, |t.core.requests|)
  {
    hide ProcessDescriptors, Flatten, NoEmptyChunk, Process, Stalls, Overruns, AllPending, SettlesOnce,
      FollowsProtocol, Shapes;
    PushChunkAccounts(t, chunk);
    var u := PushChunk(t, chunk);
    ProcessOutcome(u.queue, u.pending, u.core.requests, Readable);
    ProcessDecides(u);
    FlattenPush(t.queue, chunk);
  }

  lemma ReadReturns(s: Stream, memory: seq<byte>, offset: nat, element: Positive, len: nat, min: nat)
    requires |memory| == len * element
    ensures ReadByob(s, memory, offset, element, len, min).Returns?
  {
    hide Evaluate, Flatten, CopyCount, FilledFrom, QueueAfter, Ready, WellShaped, Unsatisfied;
    if 0 < min <= len {
      FreshDescriptor(memory, offset, element, len, min);
      FillArithmetic(|Flatten(s.queue)|, Descriptor([], memory, offset, min * element, element, ByobReader));
    }
  }

  // ---- Every step --------------------------------------------------------------------------------

  predicate PanicsOn(s: Stream, op: Op) {
    match op
    case EnqueueChunk(chunk) => EnqueuePanics(s, |chunk|)
    case Answer(bytes) => Accepted(s, bytes) && AnswerPanics(s, |bytes|)
    case AnswerWithView(view, at) => AcceptedView(s, view, at) && AnswerPanics(s, |view|)
    case _ => false
  }

  predicate HangsOn(s: Stream, op: Op) {
    match op
    case EnqueueChunk(chunk) => EnqueueHangs(s, |chunk|)
    case Answer(bytes) => Accepted(s, bytes) && AnswerHangs(s, |bytes|)
    case AnswerWithView(view, at) => AcceptedView(s, view, at) && AnswerHangs(s, |view|)
    case _ => false
  }

  /** In every state of every run, whatever the step: it panics, hangs or returns as told beforehand. */
  lemma StepOutcome(s: Stream, op: Op)
    requires Base(s) && Ranked(s) && Possible(s, op)
    ensures Step(s, op).Panic? <==> PanicsOn(s, op)
    ensures Step(s, op).Hang? <==> HangsOn(s, op)
  {
    hide Base, Ranked, Respond, RespondWithNewView, Enqueue, ReadByob, ReadDefault, AnswerPanics, AnswerHangs,
      EnqueuePanics, EnqueueHangs, Accepted, AcceptedView, Evaluate;
    match op
    case Answer(bytes) => RespondOutcome(s, bytes);
    case AnswerWithView(view, at) => ViewOutcome(s, view, at);
    case EnqueueChunk(chunk) => EnqueueOutcome(s, chunk);
    case ByobRead(memory, offset, element, len, min) => ReadReturns(s, memory, offset, element, len, min);
    case DefaultRead => ReadDefaultKeepsBase(s);
    case _ =>
  }
}
