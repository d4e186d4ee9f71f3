/**
 What every run of a byte stream keeps, with answers to detached reads included: the descriptors of
 the present reader form a line behind the detached one, and a BYOB reader has no more requests than
 descriptors.
 */
module ByteRanks {
  import opened Chunks
  import opened StreamCore
  import opened PullProtocol
  import opened PullInto
  import opened ByteStream
  import opened ByteLifecycle
  import opened ByteDelivery
  import opened ByteSteps
  import opened ByteAnswers

  /** Pending descriptors of reads through the present reader; those of default reads hold single bytes. */
  ghost predicate Lined(attached: seq<Descriptor>, kind: ReaderKind) {
    && AllPending(attached)
    && (forall i :: 0 <= i < |attached| ==> attached[i].kind == kind)
    && (kind == DefaultReader ==> forall i :: 0 <= i < |attached| ==> attached[i].element == 1)
    && (kind == NoReader ==> attached == [])
  }

  predicate Covered(attached: nat, kind: ReaderKind, requests: nat) {
    kind == ByobReader ==> requests <= attached
  }

  ghost predicate Ranked(s: Stream) {
    && Lined(Attached(s.pending), s.core.kind)
    && Covered(|Attached(s.pending)|, s.core.kind, |s.core.requests|)
  }

  lemma NewStreamIsRanked(mark: HighWaterMark, auto: nat)
    ensures Ranked(NewStream(mark, auto))
  {
  }

  lemma SoundIsRanked(s: Stream)
    requires Sound(s)
    ensures Ranked(s)
    ensures s.core.st == Readable && s.core.kind == ByobReader ==> |Attached(s.pending)| == |s.core.requests|
  {
    hide Base, SettlesInOrder, AllFit, Conserved, Unsatisfied, Matches;
    forall i | 0 <= i < |Attached(s.pending)| && s.core.kind == DefaultReader
      ensures Attached(s.pending)[i].element == 1
    {
      assert WellShaped(Attached(s.pending)[i]);
    }
  }

  /** A line of descriptors has no detached one at its front. */
  lemma LineIsAttached(attached: seq<Descriptor>, kind: ReaderKind)
    requires Lined(attached, kind)
    ensures Attached(attached) == attached
    ensures attached != [] ==> Lined(attached[1..], kind) && Attached(attached[1..]) == attached[1..]
  {
    hide WellShaped, Unsatisfied;
  }

  lemma LineIsPending(attached: seq<Descriptor>, kind: ReaderKind)
    requires Lined(attached, kind)
    ensures AllPending(attached)
  {
  }

  // ---- The processing loop -----------------------------------------------------------------------

  lemma {:induction false} ProcessKeepsLine(
      queue: seq<seq<byte>>, pending: seq<Descriptor>, requests: seq<nat>, st: State, kind: ReaderKind)
    requires Lined(pending, kind) && NoEmptyChunk(queue) && Process(queue, pending, requests, st).Done?
    ensures var r := Process(queue, pending, requests, st);
            Lined(r.pending, kind) && |pending| - |r.pending| == |requests| - |r.requests|
    decreases |pending|
  {
    hide Flatten, Ready, CopyCount, FilledFrom, QueueAfter, NoEmptyChunk, WellShaped, Unsatisfied, CommitEvent;
    if pending != [] && |Flatten(queue)| > 0 {
      FillFacts(queue, pending[0]);
      FillKeepsKind(queue, pending[0]);
      if Ready(|Flatten(queue)|, pending[0]) {
        LineIsAttached(pending, kind);
        ProcessKeepsLine(QueueAfter(queue, pending[0]), pending[1..], requests[1..], st, kind);
      }
    }
  }

  lemma FillKeepsKind(queue: seq<seq<byte>>, d: Descriptor)
    requires 0 <= CopyCount(|Flatten(queue)|, d)
    ensures FilledFrom(queue, d).kind == d.kind && FilledFrom(queue, d).element == d.element
  {
  }

  /** The loop, told of the state: it takes as many descriptors as requests. */
  lemma ProcessingKeepsLine(s: Stream)
    requires Lined(s.pending, s.core.kind) && NoEmptyChunk(s.queue) && ProcessDescriptors(s).Returns?
    ensures var t := ProcessDescriptors(s).s;
            && Lined(t.pending, s.core.kind) && t.core.kind == s.core.kind
            && |s.pending| - |t.pending| == |s.core.requests| - |t.core.requests|
  {
    hide Process, Lined, NoEmptyChunk;
    ProcessKeepsLine(s.queue, s.pending, s.core.requests, s.core.st, s.core.kind);
  }

  /** What is left of a reader's line makes a ranked state. */
  lemma LineIsRanked(s: Stream)
    requires Lined(s.pending, s.core.kind) && Covered(|s.pending|, s.core.kind, |s.core.requests|)
    ensures Ranked(s)
  {
    hide Lined;
    LineIsAttached(s.pending, s.core.kind);
  }

  // ---- Chunks ------------------------------------------------------------------------------------

  lemma {:induction false} ServeKeepsLine(s: Stream, chunk: seq<byte>)
    requires Lined(s.pending, DefaultReader) && s.core.kind == DefaultReader && Serve(s, chunk).Returns?
    ensures Ranked(Serve(s, chunk).s)
    decreases |s.core.requests|
  {
    hide Lined, Evaluate;
    LineIsAttached(s.pending, DefaultReader);
    if s.core.requests != [] && s.size != 0 {
      var t := s.(core := s.core.(requests := s.core.requests[1..]),
                  queue := s.queue[1..], size := s.size - |s.queue[0]|);
      ServeKeepsLine(SettleWith(PullIfNeeded(t), Served(s.core.requests[0], s.queue[0])), chunk);
    }
  }

  lemma ShiftLeavesLine(s: Stream)
    ensures ShiftDetached(s).pending == Attached(s.pending)
    ensures ShiftDetached(s).core == s.core
  {
  }

  lemma ProducingKeepsBase(s: Stream, bytes: seq<byte>)
    requires Base(s)
    ensures Base(s.(produced := s.produced + bytes))
  {
    hide Flatten, NoEmptyChunk, WellShaped, SettlesOnce, FollowsProtocol;
  }

  lemma EnqueueKeepsRanked(s: Stream, chunk: seq<byte>)
    requires Base(s) && Ranked(s) && Enqueue(s, chunk).Returns?
    ensures Ranked(Enqueue(s, chunk).s)
  {
    hide Base, Lined, ShiftDetached, ProcessDescriptors, Serve, Evaluate;
    if chunk != [] && CanCloseOrEnqueue(s) {
      var p := s.(produced := s.produced + chunk);
      var t := ShiftDetached(p);
      ShiftLeavesLine(p);
      ProducingKeepsBase(s, chunk);
      ShiftDetachedKeepsBase(p);
      match s.core.kind {
        case DefaultReader => ServeKeepsLine(t, chunk);
        case ByobReader =>
          ChunkAccounts(t, chunk);
          ProcessingKeepsLine(PushChunk(t, chunk));
          LineIsRanked(ProcessDescriptors(PushChunk(t, chunk)).s);
        case NoReader => LineIsRanked(PushChunk(t, chunk));
      }
    }
  }

  lemma ChunkAccounts(s: Stream, chunk: seq<byte>)
    requires Base(s) && chunk != []
    ensures NoEmptyChunk(PushChunk(s, chunk).queue)
  {
    PushChunkAccounts(s, chunk);
  }

  // ---- Answers -----------------------------------------------------------------------------------

  /**
   A detached read answered under a BYOB reader: its whole memory is queued again and fills it up, so
   the loop either settles the reader's first request with it, or does not come to an end.
   */
  lemma DetachedGoesFirst(queue: seq<seq<byte>>, d: Descriptor, rest: seq<Descriptor>, requests: seq<nat>)
    requires WellShaped(d) && d.data != [] && NoEmptyChunk(queue)
    ensures var q := queue + [d.data + d.rest];
            && 0 <= CopyCount(|Flatten(q)|, d) && NoEmptyChunk(QueueAfter(q, d))
            && |Flatten(QueueAfter(q, d))| == |Flatten(queue)| + d.Filled()
    ensures var q := queue + [d.data + d.rest];
            var r := Process(q, [d] + rest, requests, Readable);
            var later :=
              if requests == [] then Panics else Process(QueueAfter(q, d), rest, requests[1..], Readable);
            && (r.Spins? <==> d.min == d.Length() || later.Spins?)
            && (r.Panics? <==> d.min < d.Length() && later.Panics?)
            && (r.Done? ==> later.Done? && r == later.(events := r.events))
  {
    hide Ready, CopyCount, FilledFrom, QueueAfter, WellShaped, CommitEvent, DropFirst, Flatten, NoEmptyChunk;
    var q := queue + [d.data + d.rest];
    QueuedMemory(queue, d);
    OwnMemoryFills(|Flatten(q)|, d);
    FillMovesPrefix(q, d);
    LeftOver(q, d);
    assert ([d] + rest)[1..] == rest;
  }

  lemma QueuedMemory(queue: seq<seq<byte>>, d: Descriptor)
    requires d.data != [] && NoEmptyChunk(queue)
    ensures var q := queue + [d.data + d.rest];
            |Flatten(q)| == |Flatten(queue)| + d.Length() && NoEmptyChunk(q)
  {
    FlattenPush(queue, d.data + d.rest);
  }

  /** As many bytes as the memory of a descriptor has fill it up. */
  lemma OwnMemoryFills(available: nat, d: Descriptor)
    requires WellShaped(d) && d.Length() <= available
    ensures Ready(available, d) <==> d.min < d.Length()
    ensures CopyCount(available, d) == |d.rest| && d.min <= d.Length()
  {
  }

  lemma LeftOver(queue: seq<seq<byte>>, d: Descriptor)
    requires 0 <= CopyCount(|Flatten(queue)|, d) && NoEmptyChunk(queue)
    ensures |Flatten(QueueAfter(queue, d))| == |Flatten(queue)| - CopyCount(|Flatten(queue)|, d)
  {
    hide Flatten, Ready, CopyCount, NoEmptyChunk;
    DropFirstFlattens(queue, CopyCount(|Flatten(queue)|, d));
  }

  /** The state of an answer: the bytes are in the front descriptor, which may be detached. */
  ghost predicate Answering(s: Stream) {
    && s.core.st == Readable && s.pending != [] && s.pending[0].data != [] && WellShaped(s.pending[0])
    && NoEmptyChunk(s.queue)
    && (s.pending[0].kind == NoReader || s.pending[0].kind == s.core.kind)
    && (s.pending[0].kind == DefaultReader ==> s.pending[0].element == 1)
    && Lined(s.pending[1..], s.core.kind)
    && Covered(|Attached(s.pending)|, s.core.kind, |s.core.requests|)
  }

  lemma WrittenIsAnswering(s: Stream, bytes: seq<byte>)
    requires Base(s) && Ranked(s) && s.core.st == Readable && s.pending != []
    requires bytes != [] && |bytes| <= |s.pending[0].rest|
    ensures Answering(Written(s, bytes))
  {
    var t := Written(s, bytes);
    assert Attached(t.pending) == if Detached(s.pending) then s.pending[1..] else t.pending;
    assert t.pending[1..] == s.pending[1..];
    hide SettlesOnce, FollowsProtocol, Flatten, WellShaped, Unsatisfied;
    assert WellShaped(s.pending[0]);
    AbsorbKeepsShape(s.pending[0], bytes);
    if !Detached(s.pending) {
      assert Attached(s.pending) == s.pending && s.pending[0].kind == s.core.kind;
      LineIsAttached(s.pending, s.core.kind);
    }
  }

  lemma DetachedAnswerKeepsRanked(s: Stream)
    requires Answering(s) && s.pending[0].kind == NoReader && s.core.kind == ByobReader
    requires RespondReadable(s).Returns?
    ensures Ranked(RespondReadable(s).s)
  {
    hide Process, WellShaped, Unsatisfied, NoEmptyChunk, Flatten, Evaluate, Lined, QueueAfter, CopyCount;
    var d := s.pending[0];
    var q := s.queue + [d.data + d.rest];
    DetachedGoesFirst(s.queue, d, s.pending[1..], s.core.requests);
    assert [d] + s.pending[1..] == s.pending;
    ProcessKeepsLine(QueueAfter(q, d), s.pending[1..], s.core.requests[1..], Readable, ByobReader);
    LineIsRanked(ProcessDescriptors(PushChunk(s, d.data + d.rest)).s);
  }

  /** The state in which a satisfied front descriptor has been taken off and its tail queued. */
  function TakenOff(s: Stream): Stream
    requires s.pending != []
  {
    var d := s.pending[0];
    var tail := d.Filled() % d.element;
    var t := s.(pending := s.pending[1..]);
    if tail > 0 then PushChunk(t, d.data[d.Filled() - tail..]) else t
  }

  /** `respond` on a satisfied read of a BYOB reader commits it and goes on processing. */
  lemma SatisfiedCommits(s: Stream)
    requires s.pending != [] && s.pending[0].kind != NoReader && s.core.kind == ByobReader
    requires s.pending[0].min <= s.pending[0].Filled()
    ensures RespondReadable(s) ==
            (var d := s.pending[0];
             var r := CommitThenProcess(TakenOff(s), d.(data := d.View()));
             if r.Returns? then Returns(PullIfNeeded(r.s), true) else r)
    ensures var t := TakenOff(s); t.core == s.core && t.pending == s.pending[1..] && t.asks == s.asks
  {
    hide CommitThenProcess, PullIfNeeded;
  }

  lemma TailQueued(s: Stream)
    requires Answering(s)
    ensures NoEmptyChunk(TakenOff(s).queue)
    ensures |Flatten(TakenOff(s).queue)| == |Flatten(s.queue)| + s.pending[0].Filled() % s.pending[0].element
  {
    var d := s.pending[0];
    FlattenPush(s.queue, d.data[d.Filled() - d.Filled() % d.element..]);
  }

  lemma SatisfiedAnswerKeepsRanked(s: Stream)
    requires Answering(s) && s.pending[0].kind != NoReader && s.pending[0].min <= s.pending[0].Filled()
    requires RespondReadable(s).Returns?
    ensures Ranked(RespondReadable(s).s)
  {
    var d := s.pending[0];
    TailQueued(s);
    hide ProcessDescriptors, WellShaped, Unsatisfied, NoEmptyChunk, Flatten, Evaluate, Lined, CommitEvent;
    var t := TakenOff(s);
    if s.core.kind == ByobReader {
      SatisfiedCommits(s);
      hide RespondReadable, TakenOff;
      var e := CommitEvent(d.(data := d.View()), t.core.requests[0], t.core.st);
      var u := t.(core := Settle(t.core, e).(requests := t.core.requests[1..]));
      ProcessingKeepsLine(u);
      LineIsRanked(ProcessDescriptors(u).s);
    } else {
      LineIsRanked(t);
    }
  }

  lemma UnsatisfiedIsLined(s: Stream)
    requires Answering(s) && s.pending[0].kind != NoReader && s.pending[0].Filled() < s.pending[0].min
    ensures Ranked(s)
  {
    assert s.pending == [s.pending[0]] + s.pending[1..];
  }

  lemma RespondReadableKeepsRanked(s: Stream)
    requires Answering(s) && RespondReadable(s).Returns?
    ensures Ranked(RespondReadable(s).s)
  {
    hide ProcessDescriptors, WellShaped, Unsatisfied, NoEmptyChunk, Flatten, Evaluate, Lined;
    var d := s.pending[0];
    if d.kind != NoReader {
      if d.Filled() < d.min { UnsatisfiedIsLined(s); } else { SatisfiedAnswerKeepsRanked(s); }
    } else if s.core.kind == ByobReader {
      DetachedAnswerKeepsRanked(s);
    }
  }

  lemma ClosedAnswerKeepsRanked(s: Stream)
    requires Ranked(s) && s.pending != [] && RespondClosed(s).Returns?
    ensures Ranked(RespondClosed(s).s)
  {
    hide WellShaped, Unsatisfied, Evaluate, DrainEvents;
    if s.core.kind == ByobReader {
      var left := s.pending[|s.core.requests|..];
      assert Lined(Attached(left), ByobReader) by {
        assert s.core.requests == [] ==> left == s.pending;
        assert forall i :: 0 <= i < |left| ==> left[i] == s.pending[i + |s.core.requests|];
      }
    }
  }

  lemma AnswerKeepsRanked(s: Stream, bytes: seq<byte>)
    requires Base(s) && Ranked(s) && s.pending != [] && RespondInternal(s, bytes).Returns?
    ensures Ranked(RespondInternal(s, bytes).s)
  {
    hide Base, Lined, RespondReadable, RespondClosed;
    match s.core.st
    case Errored =>
    case Closed => if bytes == [] { ClosedAnswerKeepsRanked(s.(slot := Vacant)); }
    case Readable =>
      if bytes != [] && |bytes| <= |s.pending[0].rest| {
        WrittenIsAnswering(s, bytes);
        RespondReadableKeepsRanked(Written(s, bytes));
      }
  }

  // ---- Readers -----------------------------------------------------------------------------------

  lemma AddingKeepsRanked(s: Stream, d: Descriptor, id: nat)
    requires Ranked(s) && WellShaped(d) && Unsatisfied(d) && d.kind == s.core.kind == ByobReader
    ensures Ranked(AddPending(s, d, id))
  {
    hide WellShaped, Unsatisfied;
    assert Attached(s.pending + [d]) == Attached(s.pending) + [d];
  }

  lemma ReadFromQueueKeepsRanked(s: Stream, d: Descriptor, id: nat)
    requires Ranked(s) && s.core.kind == ByobReader && s.pending == [] && NoEmptyChunk(s.queue)
    requires !s.closeRequested && WellShaped(d) && Unsatisfied(d) && d.kind == ByobReader
    requires ReadFromQueue(s, d, id).Returns?
    ensures Ranked(ReadFromQueue(s, d, id).s)
  {
    hide WellShaped, Unsatisfied, NoEmptyChunk, Flatten, Evaluate, Ready, CopyCount, FilledFrom, QueueAfter;
    FillFacts(s.queue, d);
    FillKeepsKind(s.queue, d);
    var t := s.(queue := QueueAfter(s.queue, d), size := s.size - CopyCount(|Flatten(s.queue)|, d));
    if !Ready(|Flatten(s.queue)|, d) {
      AddingKeepsRanked(t, FilledFrom(s.queue, d), id);
    }
  }

  lemma ReadByobKeepsRanked(s: Stream, memory: seq<byte>, offset: nat, element: Positive, len: nat, min: nat)
    requires Base(s) && Ranked(s) && |memory| == len * element
    requires ReadByob(s, memory, offset, element, len, min).Returns?
    ensures Ranked(ReadByob(s, memory, offset, element, len, min).s)
  {
    hide Lined, WellShaped, Unsatisfied, SettlesOnce, FollowsProtocol, Shapes, Flatten, NoEmptyChunk, ReadFromQueue,
      Evaluate;
    if s.core.kind == ByobReader && 0 < min <= len {
      FreshDescriptor(memory, offset, element, len, min);
      var id := s.core.issued;
      var d := Descriptor([], memory, offset, min * element, element, ByobReader);
      var t := s.(core := Issue(s.core), asks := s.asks + [ByobAsk(element, min * element, |memory|)]);
      AddingKeepsRanked(t, d, id);
      if s.core.st == Readable && s.pending == [] && s.size > 0 {
        ReadFromQueueKeepsRanked(t, d, id);
      }
    }
  }

  lemma ReadDefaultKeepsRanked(s: Stream)
    requires Base(s) && Ranked(s) && ReadDefault(s).Returns?
    ensures Ranked(ReadDefault(s).s)
  {
    hide SettlesOnce, FollowsProtocol, Shapes, Accounts, Evaluate, WellShaped, Unsatisfied;
    AutoIsPending(s.auto);
    var d := AutoDescriptor(s.auto);
    assert Attached(s.pending + [d]) == Attached(s.pending) + [d];
  }

  lemma ReaderOpKeepsRanked(s: Stream, op: Op)
    requires Base(s) && Ranked(s) && (op.AcquireReader? || op.Release? || op.CancelStream? || op.ByobRequest?)
    ensures Step(s, op).Returns? && Ranked(Step(s, op).s)
  {
    hide SettlesOnce, FollowsProtocol, Shapes, Accounts, WellShaped, Unsatisfied;
  }

  lemma ErrorKeepsRanked(s: Stream, t: Stream, reason: Reason)
    requires Ranked(s) && t == s.(pull := t.pull)
    ensures Ranked(ErrorInternal(t, reason))
  {
  }

  lemma CloseKeepsRanked(s: Stream)
    requires Ranked(s)
    ensures Ranked(Close(s).s)
  {
    hide WellShaped, Unsatisfied;
  }

  lemma SpentIsRanked(s: Stream)
    requires Base(s) && Ranked(s)
    ensures Ranked(s.(slot := Spent))
    ensures s.slot == Live ==> s.pending != [] && s.core.st != Errored && Base(s.(slot := Spent))
  {
    hide Lined;
    SpentKeepsBase(s);
  }

  /** Every step keeps the line, whatever is called. */
  lemma StepKeepsRanked(s: Stream, op: Op)
    requires Base(s) && Ranked(s) && Possible(s, op) && Step(s, op).Returns?
    ensures Ranked(Step(s, op).s)
  {
    hide Base, Lined, Evaluate, Fulfil, Reject, Enqueue, RespondInternal, ReadByob, ReadDefault, Close,
      ErrorInternal, GetReader, ReleaseLock, Cancel, GetByobRequest, ShouldCallPull;
    SpentIsRanked(s);
    match op
    case DefaultRead => ReadDefaultKeepsRanked(s);
    case ByobRead(memory, offset, element, len, min) => ReadByobKeepsRanked(s, memory, offset, element, len, min);
    case EnqueueChunk(chunk) => EnqueueKeepsRanked(s, chunk);
    case Answer(bytes) =>
      if s.slot == Live && s.pending[0].rest != [] { AnswerKeepsRanked(s.(slot := Spent), bytes); }
    case AnswerWithView(view, _) =>
      if s.slot == Live && RespondInternal(s.(slot := Spent), view).Returns? {
        AnswerKeepsRanked(s.(slot := Spent), view);
      }
    case CloseStream => CloseKeepsRanked(s);
    case ErrorStream(reason) => ErrorKeepsRanked(s, s, reason);
    case StartFulfilled =>
    case StartRejected(reason) => ErrorKeepsRanked(s, s.(pull := s.pull.(settled := true)), reason);
    case PullFulfilled =>
    case PullRejected(reason) => ErrorKeepsRanked(s, s.(pull := Reject(s.pull)), reason);
    case _ => ReaderOpKeepsRanked(s, op);
  }
}
