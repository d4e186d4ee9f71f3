/** Every view handed out fits the read that it settles, until a detached read is answered in its place. */
module ByteFits {
  import opened Chunks
  import opened StreamCore
  import opened Wrappers
  import opened PullProtocol
  import opened PullInto
  import opened ByteStream
  import opened ByteLifecycle
  import opened ByteDelivery
  import opened ByteSteps
  import opened ByteAnswers
  import opened ByteRanks

  ghost predicate AllDefault(requests: seq<nat>, asks: seq<Ask>) {
    forall i :: 0 <= i < |requests| ==> requests[i] < |asks| && asks[requests[i]] == DefaultAsk
  }

  /** Settled reads got what they asked for, and waiting ones are paired with descriptors of their own. */
  ghost predicate Fitting(s: Stream) {
    && AllFit(s.core.log, s.asks)
    && match s.core.kind
       case NoReader => true
       case DefaultReader => AllDefault(s.core.requests, s.asks)
       case ByobReader => InPairs(Attached(s.pending), s.core.requests, s.asks, s.core.st)
  }

  ghost predicate InPairs(attached: seq<Descriptor>, requests: seq<nat>, asks: seq<Ask>, st: State) {
    Paired(attached, requests, asks) && (st == Readable ==> |attached| == |requests|)
  }

  /** A detached read is answered while reads of a new BYOB reader wait: the first of them gets its view. */
  predicate AnswersAnother(s: Stream, op: Op) {
    && (op.Answer? || op.AnswerWithView?)
    && s.core.kind == ByobReader && s.core.requests != [] && Detached(s.pending)
  }

  // ---- The processing loop -----------------------------------------------------------------------

  lemma {:induction false} ProcessFits(
      queue: seq<seq<byte>>, pending: seq<Descriptor>, requests: seq<nat>, asks: seq<Ask>)
    requires AllPending(pending) && NoEmptyChunk(queue) && Paired(pending, requests, asks)
    requires Process(queue, pending, requests, Readable).Done?
    ensures var r := Process(queue, pending, requests, Readable);
            && AllFit(r.events, asks) && Paired(r.pending, r.requests, asks)
            && |pending| - |r.pending| == |requests| - |r.requests|
    decreases |pending|
  {
    hide Flatten, Ready, CopyCount, FilledFrom, QueueAfter, NoEmptyChunk, WellShaped, Unsatisfied, Fits, CommitEvent,
      Matches;
    if pending != [] && |Flatten(queue)| > 0 {
      var d := pending[0];
      FillFacts(queue, d);
      var filled, left := FilledFrom(queue, d), QueueAfter(queue, d);
      if requests != [] { FilledMatches(queue, d, asks[requests[0]]); }
      if Ready(|Flatten(queue)|, d) {
        ProcessFits(left, pending[1..], requests[1..], asks);
        ReadyFits(queue, d, requests[0], asks[requests[0]]);
      }
    }
  }

  lemma FilledMatches(queue: seq<seq<byte>>, d: Descriptor, ask: Ask)
    requires 0 <= CopyCount(|Flatten(queue)|, d) && FilledFrom(queue, d).Length() == d.Length()
    ensures Matches(d, ask) ==> Matches(FilledFrom(queue, d), ask)
  {
    hide Flatten, Ready, CopyCount;
  }

  lemma ReadyFits(queue: seq<seq<byte>>, d: Descriptor, id: nat, ask: Ask)
    requires WellShaped(d) && Unsatisfied(d) && NoEmptyChunk(queue) && Matches(d, ask) && Ready(|Flatten(queue)|, d)
    ensures 0 <= CopyCount(|Flatten(queue)|, d)
    ensures var e := CommitEvent(FilledFrom(queue, d), id, Readable); e.id == id && Fits(e, ask)
  {
    hide Flatten, Ready, CopyCount, NoEmptyChunk, WellShaped, Unsatisfied, FilledFrom, QueueAfter;
    FillFacts(queue, d);
    FilledMatches(queue, d, ask);
    CommitFits(FilledFrom(queue, d), id, ask);
  }

  lemma ProcessingFits(s: Stream)
    requires Lined(s.pending, ByobReader) && NoEmptyChunk(s.queue) && s.core.st == Readable
    requires s.core.kind == ByobReader && AllFit(s.core.log, s.asks)
    requires InPairs(s.pending, s.core.requests, s.asks, Readable) && ProcessDescriptors(s).Returns?
    ensures Fitting(ProcessDescriptors(s).s)
  {
    hide Process, AllFit, Paired, NoEmptyChunk, Lined;
    LineIsPending(s.pending, ByobReader);
    ProcessFits(s.queue, s.pending, s.core.requests, s.asks);
    ProcessKeepsLine(s.queue, s.pending, s.core.requests, Readable, ByobReader);
    var r := Process(s.queue, s.pending, s.core.requests, Readable);
    LineIsAttached(r.pending, ByobReader);
    FitConcat(s.core.log, r.events, s.asks);
  }

  // ---- Chunks ------------------------------------------------------------------------------------

  lemma {:induction false} ServeFits(s: Stream, chunk: seq<byte>)
    requires Fitting(s) && s.core.kind == DefaultReader && NoEmptyChunk(s.queue) && chunk != []
    requires Serve(s, chunk).Returns?
    ensures Fitting(Serve(s, chunk).s)
    decreases |s.core.requests|
  {
    hide Fitting, Evaluate, ShouldCallPull;
    FittingIgnoresQueue(s, PushChunk(s, chunk));
    if s.core.requests != [] {
      var e := Served(s.core.requests[0], if s.size == 0 then chunk else s.queue[0]);
      var t := s.(core := s.core.(requests := s.core.requests[1..]));
      if s.size == 0 {
        HeadFits(s, SettleWith(t.(pending := if t.pending == [] then [] else t.pending[1..]), e), e);
      } else {
        var u := PullIfNeeded(t.(queue := t.queue[1..], size := t.size - |t.queue[0]|));
        HeadFits(s, SettleWith(u, e), e);
        ServeFits(SettleWith(u, e), chunk);
      }
    }
  }

  lemma FittingIgnoresQueue(s: Stream, t: Stream)
    requires Fitting(s) && t == s.(queue := t.queue, size := t.size)
    ensures Fitting(t)
  {
  }

  /** The default read at the head of the queue is given a chunk. */
  lemma HeadFits(s: Stream, t: Stream, e: Event<seq<byte>>)
    requires Fitting(s) && s.core.kind == DefaultReader && s.core.requests != []
    requires e.Served? && e.id == s.core.requests[0] && e.view != []
    requires t.core == Settle(s.core, e).(requests := s.core.requests[1..]) && t.asks == s.asks
    ensures Fitting(t)
  {
    hide Fits;
    ServedFits(e.id, e.view);
    FitPush(s.core.log, e, s.asks);
  }


  lemma ServedFits(id: nat, chunk: seq<byte>)
    requires chunk != []
    ensures Fits(Served(id, chunk), DefaultAsk)
  {
  }

  lemma EnqueueFits(s: Stream, chunk: seq<byte>)
    requires Base(s) && Ranked(s) && Fitting(s) && Enqueue(s, chunk).Returns?
    ensures Fitting(Enqueue(s, chunk).s)
  {
    hide Base, Lined, AllFit, Paired, AllDefault, ShiftDetached, ProcessDescriptors, Serve, Evaluate, NoEmptyChunk;
    if chunk != [] && CanCloseOrEnqueue(s) {
      var p := s.(produced := s.produced + chunk);
      var t := ShiftDetached(p);
      ShiftLeavesLine(p);
      ProducingKeepsBase(s, chunk);
      ShiftDetachedKeepsBase(p);
      ShiftKeepsAsks(p);
      ChunkAccounts(t, chunk);
      match s.core.kind {
        case DefaultReader => BaseAccounts(t); ServeFits(t, chunk);
        case ByobReader => ProcessingFits(PushChunk(t, chunk));
        case NoReader =>
      }
    }
  }

  lemma BaseAccounts(s: Stream)
    requires Base(s)
    ensures NoEmptyChunk(s.queue) && |s.asks| == s.core.issued && SettlesOnce(s.core)
  {
    hide SettlesOnce, FollowsProtocol, NoEmptyChunk, Flatten, Shapes;
  }

  lemma ShiftKeepsAsks(s: Stream)
    ensures ShiftDetached(s).asks == s.asks
  {
  }

  // ---- Answers -----------------------------------------------------------------------------------

  lemma AttachedAnswerFits(s: Stream)
    requires Answering(s) && s.core.kind == ByobReader && s.pending[0].kind == ByobReader
    requires AllFit(s.core.log, s.asks) && InPairs(s.pending, s.core.requests, s.asks, Readable)
    requires RespondReadable(s).Returns?
    ensures Fitting(RespondReadable(s).s)
  {
    hide Lined, ProcessDescriptors, WellShaped, Unsatisfied, NoEmptyChunk, Flatten, Evaluate, Fits, Matches;
    var d := s.pending[0];
    if d.min <= d.Filled() {
      TailQueued(s);
      SatisfiedCommits(s);
      hide RespondReadable, TakenOff;
      CommitFirst(s, TakenOff(s));
      FittingIgnoresPull(CommitThenProcess(TakenOff(s), d.(data := d.View())).s);
    }
  }

  lemma CommitFirst(s: Stream, t: Stream)
    requires Answering(s) && s.core.kind == ByobReader && s.pending[0].kind == ByobReader
    requires s.pending[0].min <= s.pending[0].Filled()
    requires AllFit(s.core.log, s.asks) && InPairs(s.pending, s.core.requests, s.asks, Readable)
    requires t.core == s.core && t.pending == s.pending[1..] && t.asks == s.asks && NoEmptyChunk(t.queue)
    ensures var d := s.pending[0];
            var r := CommitThenProcess(t, d.(data := d.View())); r.Returns? ==> Fitting(r.s)
  {
    hide ProcessDescriptors, WellShaped, Unsatisfied, NoEmptyChunk, Lined, CommitEvent, Fits, Matches;
    var d := s.pending[0];
    if s.core.requests != [] {
      var id := t.core.requests[0];
      var e := CommitEvent(d.(data := d.View()), id, t.core.st);
      CommittedFits(d, id, s.asks[id]);
      CommitNames(d, id);
      FitPush(t.core.log, e, s.asks);
      var u := t.(core := Settle(t.core, e).(requests := t.core.requests[1..]));
      assert InPairs(u.pending, u.core.requests, u.asks, Readable);
      if ProcessDescriptors(u).Returns? { ProcessingFits(u); }
    }
  }


  lemma CommitNames(d: Descriptor, id: nat)
    ensures CommitEvent(d.(data := d.View()), id, Readable).id == id
  {
  }

  lemma WrittenInPairs(s: Stream, bytes: seq<byte>)
    requires s.pending != [] && |bytes| <= |s.pending[0].rest|
    requires !Detached(s.pending) && InPairs(Attached(s.pending), s.core.requests, s.asks, s.core.st)
    ensures InPairs(Written(s, bytes).pending, s.core.requests, s.asks, s.core.st)
  {
    assert s.core.requests != [] ==> Matches(s.pending[0], s.asks[s.core.requests[0]]);
  }

  lemma ClosedAnswerFits(s: Stream)
    requires Ranked(s) && Fitting(s) && s.core.st == Closed && s.pending != [] && RespondClosed(s).Returns?
    requires s.core.kind == ByobReader && s.core.requests != [] ==> !Detached(s.pending)
    ensures Fitting(RespondClosed(s).s)
  {
    hide Lined, Evaluate, Fits, Matches;
    if s.core.kind == ByobReader {
      if s.core.requests != [] {
        DrainFits(s.pending, s.core.requests, s.asks);
      } else {
        assert DrainEvents(s.pending, s.core.requests) == [];
      }
      FitConcat(s.core.log, DrainEvents(s.pending, s.core.requests), s.asks);
    }
  }

  lemma AnswerFits(s: Stream, bytes: seq<byte>)
    requires Base(s) && Ranked(s) && Fitting(s) && s.pending != [] && RespondInternal(s, bytes).Returns?
    requires s.core.kind == ByobReader && s.core.requests != [] ==> !Detached(s.pending)
    ensures Fitting(RespondInternal(s, bytes).s)
  {
    hide Base, Lined, RespondReadable, RespondClosed, AllFit, Paired, AllDefault;
    match s.core.st
    case Errored =>
    case Closed => if bytes == [] { ClosedAnswerFits(s.(slot := Vacant)); }
    case Readable =>
      if bytes != [] && |bytes| <= |s.pending[0].rest| {
        var t := Written(s, bytes);
        WrittenIsAnswering(s, bytes);
        if s.core.kind != ByobReader {
          OthersSettleNothing(t);
        } else if Detached(s.pending) {
          assert s.core.requests == [];
          NoRequestIsLeft(t);
        } else {
          WrittenInPairs(s, bytes);
          AttachedAnswerFits(t);
        }
      }
  }

  /**
   The other case: the whole memory of the detached read, of whatever length, is handed to the first
   read that waits. It fits only if its length happens to be one that the read can take.
   */
  lemma AnotherReadsView(s: Stream, bytes: seq<byte>)
    requires Base(s) && Ranked(s) && s.core.st == Readable && AnswersAnother(s, Answer(bytes))
    requires bytes != [] && |bytes| <= |s.pending[0].rest|
    requires RespondInternal(s, bytes).Returns?
    ensures var log, n := RespondInternal(s, bytes).s.core.log, |s.core.log|;
            n < |log| && log[n].Served? && log[n].id == s.core.requests[0] && |log[n].view| == s.pending[0].Length()
    ensures var log, n := RespondInternal(s, bytes).s.core.log, |s.core.log|;
            forall element: Positive, min: nat, length: nat ::
              Fits(log[n], ByobAsk(element, min, length)) <==>
              s.pending[0].Length() % element == 0 && min <= s.pending[0].Length() <= length
  {
    hide Base, Lined, Process, Evaluate, WellShaped, CommitEvent, Flatten, NoEmptyChunk, FilledFrom, QueueAfter;
    WrittenIsAnswering(s, bytes);
    var t := Written(s, bytes);
    var d := t.pending[0];
    var q := t.queue + [d.data + d.rest];
    assert [d] + t.pending[1..] == t.pending && d.Length() == s.pending[0].Length();
    DetachedGoesFirst(t.queue, d, t.pending[1..], t.core.requests);
    WholeMemoryCommits(t.queue, d, t.core.requests[0]);
    FirstEvent(q, t.pending, t.core.requests);
  }

  lemma FirstEvent(queue: seq<seq<byte>>, pending: seq<Descriptor>, requests: seq<nat>)
    requires pending != [] && requests != [] && |Flatten(queue)| > 0 && Ready(|Flatten(queue)|, pending[0])
    requires Process(queue, pending, requests, Readable).Done?
    ensures var r := Process(queue, pending, requests, Readable);
            r.events != [] && r.events[0] == CommitEvent(FilledFrom(queue, pending[0]), requests[0], Readable)
  {
    hide Flatten, Ready, CommitEvent, FilledFrom, QueueAfter;
  }

  lemma WholeMemoryCommits(queue: seq<seq<byte>>, d: Descriptor, id: nat)
    requires WellShaped(d) && d.data != [] && NoEmptyChunk(queue)
    ensures var q := queue + [d.data + d.rest];
            && 0 <= CopyCount(|Flatten(q)|, d) && |Flatten(q)| > 0
            && (Ready(|Flatten(q)|, d) <==> d.min < d.Length()) && d.min <= d.Length()
            && var e := CommitEvent(FilledFrom(q, d), id, Readable);
               e.Served? && e.id == id && |e.view| == d.Length()
  {
    hide Flatten, Ready, CopyCount, NoEmptyChunk, WellShaped;
    var q := queue + [d.data + d.rest];
    QueuedMemory(queue, d);
    OwnMemoryFills(|Flatten(q)|, d);
    FillMovesPrefix(q, d);
    WholeElements(FilledFrom(q, d), d);
  }

  lemma WholeElements(filled: Descriptor, d: Descriptor)
    requires WellShaped(d) && filled.Filled() == d.Length() && filled.element == d.element
    ensures filled.View() == filled.data
  {
  }

  lemma OthersSettleNothing(s: Stream)
    requires s.pending != [] && s.core.kind != ByobReader && RespondReadable(s).Returns?
    ensures RespondReadable(s).s.core == s.core && RespondReadable(s).s.asks == s.asks
  {
    hide Evaluate;
  }

  lemma NoRequestIsLeft(s: Stream)
    requires Answering(s) && s.pending[0].kind == NoReader && s.core.kind == ByobReader && s.core.requests == []
    ensures !RespondReadable(s).Returns?
  {
    hide Process, WellShaped, Unsatisfied, NoEmptyChunk, Flatten, Evaluate, Lined, QueueAfter, CopyCount;
    DetachedGoesFirst(s.queue, s.pending[0], s.pending[1..], s.core.requests);
    assert [s.pending[0]] + s.pending[1..] == s.pending;
  }

  // ---- Readers -----------------------------------------------------------------------------------

  /** A read settled on the spot. */
  lemma SettledFits(s: Stream, t: Stream, ask: Ask, e: Event<seq<byte>>)
    requires Fitting(s) && |s.asks| == s.core.issued && e.id == s.core.issued && Fits(e, ask)
    requires t.core == Issue(s.core) && t.asks == s.asks + [ask] && Attached(t.pending) == Attached(s.pending)
    ensures Fitting(SettleWith(t, e))
  {
    hide Fits, Matches;
    MoreAsksFit(s.core, s.asks, ask);
    FitPush(s.core.log, e, t.asks);
  }

  /** A BYOB read that waits. */
  lemma AddedFits(s: Stream, t: Stream, d: Descriptor, ask: Ask)
    requires Fitting(s) && |s.asks| == s.core.issued && s.core.kind == ByobReader && Matches(d, ask)
    requires t.core == Issue(s.core) && t.asks == s.asks + [ask] && t.pending == s.pending
    ensures Fitting(AddPending(t, d, s.core.issued))
  {
    hide Fits, Matches;
    MoreAsksFit(s.core, s.asks, ask);
    assert Attached(s.pending + [d]) == Attached(s.pending) + [d] by {
      KindOfMatch(d, ask);
    }
  }

  lemma KindOfMatch(d: Descriptor, ask: Ask)
    requires Matches(d, ask)
    ensures d.kind == ByobReader
  {
  }

  lemma ReadFromQueueFits(s: Stream, t: Stream, d: Descriptor, ask: Ask)
    requires Fitting(s) && |s.asks| == s.core.issued && s.core.kind == ByobReader && s.core.st == Readable
    requires t.core == Issue(s.core) && t.asks == s.asks + [ask] && t.pending == s.pending == [] && t.queue == s.queue
    requires !t.closeRequested && NoEmptyChunk(s.queue) && WellShaped(d) && Unsatisfied(d) && Matches(d, ask)
    requires ReadFromQueue(t, d, s.core.issued).Returns?
    ensures Fitting(ReadFromQueue(t, d, s.core.issued).s)
  {
    hide Fitting, Fits, Matches, WellShaped, Unsatisfied, NoEmptyChunk, Flatten, Evaluate, Ready, CopyCount,
      FilledFrom, QueueAfter, ShouldCallPull;
    var id, filled := s.core.issued, FilledFrom(s.queue, d);
    FillFacts(s.queue, d);
    FilledMatches(s.queue, d, ask);
    var u := t.(queue := QueueAfter(t.queue, d), size := t.size - CopyCount(|Flatten(t.queue)|, d));
    if Ready(|Flatten(s.queue)|, d) {
      ReadyFits(s.queue, d, id, ask);
      SettledFits(s, PullIfNeeded(u), ask, Served(id, filled.View()));
    } else {
      AddedFits(s, u, filled, ask);
      FittingIgnoresPull(AddPending(u, filled, id));
    }
  }

  lemma FittingIgnoresPull(s: Stream)
    ensures Fitting(PullIfNeeded(s)) <==> Fitting(s)
  {
    hide Evaluate, AllFit, Paired, AllDefault;
  }

  lemma ReadByobFits(s: Stream, memory: seq<byte>, offset: nat, element: Positive, len: nat, min: nat)
    requires Base(s) && Fitting(s) && |memory| == len * element
    requires ReadByob(s, memory, offset, element, len, min).Returns?
    ensures Fitting(ReadByob(s, memory, offset, element, len, min).s)
  {
    hide Fitting, WellShaped, Unsatisfied, SettlesOnce, FollowsProtocol, Shapes, Flatten, NoEmptyChunk, ReadFromQueue,
      Evaluate, ShouldCallPull;
    if s.core.kind == ByobReader && 0 < min <= len {
      FreshDescriptor(memory, offset, element, len, min);
      var id := s.core.issued;
      var ask := ByobAsk(element, min * element, |memory|);
      var d := Descriptor([], memory, offset, min * element, element, ByobReader);
      var t := s.(core := Issue(s.core), asks := s.asks + [ask]);
      if s.core.st == Errored {
        SettledFits(s, t, ask, Failed(id, StoredError(s.core)));
      } else if s.pending != [] {
        AddedFits(s, t, d, ask);
      } else if s.core.st == Closed {
        SettledFits(s, t, ask, Ended(id, Some([])));
      } else if s.size > 0 {
        ReadFromQueueFits(s, t, d, ask);
      } else {
        AddedFits(s, t, d, ask);
        FittingIgnoresPull(AddPending(t, d, id));
      }
    }
  }

  lemma ReadDefaultFits(s: Stream)
    requires Base(s) && Fitting(s) && ReadDefault(s).Returns?
    ensures Fitting(ReadDefault(s).s)
  {
    hide SettlesOnce, FollowsProtocol, Shapes, Flatten, Fits, Evaluate, Close, ShouldCallPull;
    if s.core.kind == DefaultReader {
      var id := s.core.issued;
      MoreAsksFit(s.core, s.asks, DefaultAsk);
      InstantFits(id, StoredError(s.core));
      if s.core.st == Readable && s.size > 0 {
        ServedFits(id, s.queue[0]);
        FitPush(s.core.log, Served(id, s.queue[0]), s.asks + [DefaultAsk]);
      } else {
        FitPush(s.core.log, Ended(id, None), s.asks + [DefaultAsk]);
        FitPush(s.core.log, Failed(id, StoredError(s.core)), s.asks + [DefaultAsk]);
      }
    }
  }

  lemma InstantFits(id: nat, reason: Reason)
    ensures Fits(Ended(id, None), DefaultAsk) && Fits(Failed(id, reason), DefaultAsk)
  {
  }

  lemma ErrorFits(s: Stream, t: Stream, reason: Reason)
    requires Base(s) && Fitting(s) && t == s.(pull := t.pull)
    ensures Fitting(ErrorInternal(t, reason))
  {
    BaseAccounts(s);
    hide Base, SettlesOnce, AllFit;
    FitBulk(s.core, s.asks, reason);
  }

  lemma CloseFits(s: Stream)
    requires Base(s) && Fitting(s)
    ensures Fitting(Close(s).s)
  {
    BaseAccounts(s);
    hide Base, SettlesOnce, AllFit, Paired;
    FitBulk(s.core, s.asks, PendingNotAligned);
  }

  lemma ReaderOpFits(s: Stream, op: Op)
    requires Base(s) && Ranked(s) && Fitting(s)
    requires op.AcquireReader? || op.Release? || op.CancelStream? || op.ByobRequest?
    ensures Step(s, op).Returns? && Fitting(Step(s, op).s)
  {
    BaseAccounts(s);
    hide SettlesOnce, FollowsProtocol, Shapes, Accounts, AllFit, AllPending, Matches;
    FitBulk(s.core, s.asks, ReaderReleased);
  }

  /** As long as no answer goes to another read, what a read gets fits what it asked for. */
  lemma StepFits(s: Stream, op: Op)
    requires Base(s) && Ranked(s) && Fitting(s) && Possible(s, op) && Step(s, op).Returns?
    requires !AnswersAnother(s, op)
    ensures Fitting(Step(s, op).s)
  {
    hide Base, Ranked, AllFit, Paired, AllDefault, Evaluate, Fulfil, Reject, Enqueue, RespondInternal, ReadByob,
      ReadDefault, Close, ErrorInternal, GetReader, ReleaseLock, Cancel, GetByobRequest, ShouldCallPull;
    SpentIsRanked(s);
    match op
    case DefaultRead => ReadDefaultFits(s);
    case ByobRead(memory, offset, element, len, min) => ReadByobFits(s, memory, offset, element, len, min);
    case EnqueueChunk(chunk) => EnqueueFits(s, chunk);
    case Answer(bytes) =>
      if s.slot == Live && s.pending[0].rest != [] { AnswerFits(s.(slot := Spent), bytes); }
    case AnswerWithView(view, _) =>
      if s.slot == Live && RespondInternal(s.(slot := Spent), view).Returns? {
        AnswerFits(s.(slot := Spent), view);
      }
    case CloseStream => CloseFits(s);
    case ErrorStream(reason) => ErrorFits(s, s, reason);
    case StartFulfilled =>
    case StartRejected(reason) => ErrorFits(s, s.(pull := s.pull.(settled := true)), reason);
    case PullFulfilled =>
    case PullRejected(reason) => ErrorFits(s, s.(pull := Reject(s.pull)), reason);
    case _ => ReaderOpFits(s, op);
  }
}
