/** Exactly when a byte stream settles its reads in the order in which they were made. */
module ByteOrder {
  import opened Chunks
  import opened StreamCore
  import opened Wrappers
  import opened PullProtocol
  import opened PullInto
  import opened ByteStream
  import opened ByteLifecycle
  import opened ByteDelivery
  import opened ByteAnswers
  import opened ByteRanks

  /**
   A default read overtakes the ones that wait: bytes are queued, and it takes them at once. This is
   decided before the call.
   */
  predicate Overtakes(s: Stream, op: Op) {
    op.DefaultRead? && s.core.st == Readable && s.core.kind == DefaultReader && s.size > 0 && s.core.requests != []
  }

  /** No read is added to the trail, or the newest at its end. */
  predicate TrailGrows(c: Core<seq<byte>>, c': Core<seq<byte>>) {
    || (Trail(c') == Trail(c) && c.issued <= c'.issued)
    || (Trail(c') == Trail(c) + [c.issued] && c'.issued == c.issued + 1)
  }

  /** The newest read is settled in front of those that wait. */
  predicate TrailOvertaken(c: Core<seq<byte>>, c': Core<seq<byte>>) {
    && c.requests != [] && c'.issued == c.issued + 1
    && Trail(c') == Ids(c.log) + [c.issued] + c.requests
  }

  lemma GrowingKeepsOrder(c: Core<seq<byte>>, c': Core<seq<byte>>)
    requires SettlesOnce(c) && TrailGrows(c, c')
    ensures SettlesInOrder(c') <==> SettlesInOrder(c)
  {
    var t := Trail(c);
    if Trail(c') == t + [c.issued] {
      InsertIncreasing(t, |t|, c.issued);
      assert t[..|t|] + [c.issued] + t[|t|..] == t + [c.issued];
    }
  }

  lemma OvertakingLosesOrder(c: Core<seq<byte>>, c': Core<seq<byte>>)
    requires SettlesOnce(c) && TrailOvertaken(c, c')
    ensures !SettlesInOrder(c')
  {
    var t, n := Trail(c), |c.log|;
    assert t[..n] == Ids(c.log) && t[n..] == c.requests;
    InsertIncreasing(t, n, c.issued);
  }

  // ---- The trail, operation by operation ---------------------------------------------------------

  lemma {:induction false} ProcessKeepsTrail(
      queue: seq<seq<byte>>, pending: seq<Descriptor>, requests: seq<nat>, st: State)
    requires Process(queue, pending, requests, st).Done?
    ensures var r := Process(queue, pending, requests, st); Ids(r.events) + r.requests == requests
    decreases |pending|
  {
    hide Flatten, Ready, CopyCount, FilledFrom, QueueAfter;
    if pending != [] && |Flatten(queue)| > 0 && Ready(|Flatten(queue)|, pending[0]) {
      var left := QueueAfter(queue, pending[0]);
      ProcessKeepsTrail(left, pending[1..], requests[1..], st);
      var rest := Process(left, pending[1..], requests[1..], st);
      IdsPush(CommitEvent(FilledFrom(queue, pending[0]), requests[0], st), rest.events, requests, rest.requests);
    }
  }

  /** Nothing is issued, and the trail stays as it is. */
  predicate SameTrail(s: Stream, t: Stream) {
    Trail(t.core) == Trail(s.core) && t.core.issued == s.core.issued
  }

  lemma ProcessingKeepsTrail(s: Stream)
    requires ProcessDescriptors(s).Returns?
    ensures SameTrail(s, ProcessDescriptors(s).s)
  {
    hide Process, Flatten;
    var r := Process(s.queue, s.pending, s.core.requests, s.core.st);
    ProcessKeepsTrail(s.queue, s.pending, s.core.requests, s.core.st);
    IdsConcat(s.core.log, r.events);
  }

  lemma {:induction false} ServeKeepsTrail(s: Stream, chunk: seq<byte>)
    requires Serve(s, chunk).Returns?
    ensures SameTrail(s, Serve(s, chunk).s)
    decreases |s.core.requests|
  {
    hide Evaluate;
    if s.core.requests != [] {
      if s.size == 0 {
        SettleHeadKeepsTrail(s.core, Served(s.core.requests[0], chunk));
      } else {
        var e := Served(s.core.requests[0], s.queue[0]);
        SettleHeadKeepsTrail(s.core, e);
        var t := s.(core := s.core.(requests := s.core.requests[1..]),
                    queue := s.queue[1..], size := s.size - |s.queue[0]|);
        ServeKeepsTrail(SettleWith(PullIfNeeded(t), e), chunk);
      }
    }
  }

  lemma EnqueueKeepsTrail(s: Stream, chunk: seq<byte>)
    requires Enqueue(s, chunk).Returns?
    ensures SameTrail(s, Enqueue(s, chunk).s)
  {
    hide Trail, Evaluate, ShiftDetached, ProcessDescriptors, Serve;
    if chunk != [] && CanCloseOrEnqueue(s) {
      var p := s.(produced := s.produced + chunk);
      ShiftLeavesLine(p);
      match s.core.kind {
        case DefaultReader => ServeKeepsTrail(ShiftDetached(p), chunk);
        case ByobReader => ProcessingKeepsTrail(PushChunk(ShiftDetached(p), chunk));
        case NoReader =>
      }
    }
  }

  lemma RespondReadableKeepsTrail(s: Stream)
    requires s.pending != [] && RespondReadable(s).Returns?
    ensures SameTrail(s, RespondReadable(s).s)
  {
    hide Trail, Evaluate, ProcessDescriptors;
    var d := s.pending[0];
    if d.kind == NoReader {
      if s.core.kind == ByobReader {
        ProcessingKeepsTrail(if d.Filled() > 0 then PushChunk(s, d.data + d.rest) else s);
      }
    } else if d.min <= d.Filled() && s.core.kind == ByobReader {
      var t := TakenOff(s);
      var e := CommitEvent(d.(data := d.View()), t.core.requests[0], t.core.st);
      SettleHeadKeepsTrail(t.core, e);
      ProcessingKeepsTrail(t.(core := Settle(t.core, e).(requests := t.core.requests[1..])));
    }
  }

  lemma AnswerKeepsTrail(s: Stream, bytes: seq<byte>)
    requires s.pending != [] && RespondInternal(s, bytes).Returns?
    ensures SameTrail(s, RespondInternal(s, bytes).s)
  {
    hide Trail, Evaluate, RespondReadable;
    match s.core.st
    case Errored =>
    case Closed => if bytes == [] && s.core.kind == ByobReader { DrainKeepsTrail(s.(slot := Vacant)); }
    case Readable =>
      if bytes != [] && |bytes| <= |s.pending[0].rest| { RespondReadableKeepsTrail(Written(s, bytes)); }
  }

  lemma CloseKeepsTrail(s: Stream)
    ensures SameTrail(s, Close(s).s)
  {
    hide Trail;
    BulkSettlingKeepsTrail(s.core, PendingNotAligned);
  }

  lemma ErrorKeepsTrail(s: Stream, reason: Reason)
    ensures SameTrail(s, ErrorInternal(s, reason))
  {
    hide Trail;
    BulkSettlingKeepsTrail(s.core, reason);
  }

  /** A read settled on the spot, in front of those that wait. */
  lemma SettledTrail(c: Core<seq<byte>>, e: Event<seq<byte>>)
    requires e.id == c.issued
    ensures Trail(Settle(Issue(c), e)) == Ids(c.log) + [c.issued] + c.requests
    ensures if c.requests == [] then TrailGrows(c, Settle(Issue(c), e)) else TrailOvertaken(c, Settle(Issue(c), e))
  {
    IdsConcat(c.log, [e]);
    assert Ids([e]) == [c.issued];
  }

  lemma WaitingTrail(c: Core<seq<byte>>)
    ensures TrailGrows(c, Issue(c).(requests := c.requests + [c.issued]))
    ensures TrailGrows(c, Issue(c))
  {
    assert Trail(Issue(c).(requests := c.requests + [c.issued])) == Trail(c) + [c.issued];
  }

  lemma ReadDefaultTrail(s: Stream)
    requires Base(s) && ReadDefault(s).Returns?
    ensures var t := ReadDefault(s).s;
            if Overtakes(s, DefaultRead) then TrailOvertaken(s.core, t.core) else TrailGrows(s.core, t.core)
  {
    hide SettlesOnce, FollowsProtocol, Shapes, Accounts, Trail, Evaluate, Close;
    var id := s.core.issued;
    WaitingTrail(s.core);
    match s.core.st
    case Closed => SettledTrail(s.core, Ended(id, None));
    case Errored => SettledTrail(s.core, Failed(id, StoredError(s.core)));
    case Readable =>
      if s.size > 0 && s.queue != [] { SettledTrail(s.core, Served(id, s.queue[0])); }
  }

  lemma ReadFromQueueTrail(s: Stream, t: Stream, d: Descriptor)
    requires t.core == Issue(s.core) && s.core.st == Readable && !t.closeRequested && s.core.requests == []
    requires ReadFromQueue(t, d, s.core.issued).Returns?
    ensures TrailGrows(s.core, ReadFromQueue(t, d, s.core.issued).s.core)
  {
    hide Trail, Evaluate, Flatten, Ready, CopyCount, FilledFrom, QueueAfter;
    WaitingTrail(s.core);
    SettledTrail(s.core, Served(s.core.issued, FilledFrom(t.queue, d).View()));
  }

  lemma ReadByobTrail(s: Stream, memory: seq<byte>, offset: nat, element: Positive, len: nat, min: nat)
    requires Base(s) && Ranked(s) && |memory| == len * element
    requires ReadByob(s, memory, offset, element, len, min).Returns?
    ensures TrailGrows(s.core, ReadByob(s, memory, offset, element, len, min).s.core)
  {
    hide SettlesOnce, FollowsProtocol, Shapes, Accounts, Lined, Trail, Evaluate, ReadFromQueue;
    var id := s.core.issued;
    WaitingTrail(s.core);
    if s.core.kind == ByobReader && 0 < min <= len {
      var d := Descriptor([], memory, offset, min * element, element, ByobReader);
      if s.core.st == Errored {
        SettledTrail(s.core, Failed(id, StoredError(s.core)));
      } else if s.pending == [] {
        assert s.core.requests == [];
        SettledTrail(s.core, Ended(id, Some([])));
        if s.core.st == Readable && s.size > 0 {
          var ask := ByobAsk(element, min * element, |memory|);
          ReadFromQueueTrail(s, s.(core := Issue(s.core), asks := s.asks + [ask]), d);
        }
      }
    }
  }

  lemma ReaderOpTrail(s: Stream, op: Op)
    requires op.AcquireReader? || op.Release? || op.CancelStream? || op.ByobRequest?
    ensures Step(s, op).Returns? && SameTrail(s, Step(s, op).s)
  {
    hide Trail;
    BulkSettlingKeepsTrail(s.core, ReaderReleased);
    if op.AcquireReader? { UnlockedTrail(s.core, op.kind); }
  }

  lemma StepTrail(s: Stream, op: Op)
    requires Base(s) && Ranked(s) && Possible(s, op) && Step(s, op).Returns?
    ensures var t := Step(s, op).s;
            if Overtakes(s, op) then TrailOvertaken(s.core, t.core) else TrailGrows(s.core, t.core)
  {
    hide Base, Ranked, Trail, TrailOvertaken, Evaluate, Fulfil, Reject, Enqueue, RespondInternal, ReadByob,
      ReadDefault, Close, ErrorInternal, GetReader, ReleaseLock, Cancel, GetByobRequest, ShouldCallPull;
    SpentIsRanked(s);
    match op
    case DefaultRead => ReadDefaultTrail(s);
    case ByobRead(memory, offset, element, len, min) => ReadByobTrail(s, memory, offset, element, len, min);
    case EnqueueChunk(chunk) => EnqueueKeepsTrail(s, chunk);
    case Answer(bytes) =>
      if s.slot == Live && s.pending[0].rest != [] { AnswerKeepsTrail(s.(slot := Spent), bytes); }
    case AnswerWithView(view, _) =>
      if s.slot == Live && RespondInternal(s.(slot := Spent), view).Returns? {
        AnswerKeepsTrail(s.(slot := Spent), view);
      }
    case CloseStream => CloseKeepsTrail(s);
    case ErrorStream(reason) => ErrorKeepsTrail(s, reason);
    case StartFulfilled =>
    case StartRejected(reason) => ErrorKeepsTrail(s.(pull := s.pull.(settled := true)), reason);
    case PullFulfilled =>
    case PullRejected(reason) => ErrorKeepsTrail(s.(pull := Reject(s.pull)), reason);
    case _ => ReaderOpTrail(s, op);
  }

  /** From any reachable state a step keeps the order, if it still holds, exactly when it overtakes no read. */
  lemma StepKeepsOrderIff(s: Stream, op: Op)
    requires Base(s) && Ranked(s) && Possible(s, op) && Step(s, op).Returns?
    ensures SettlesInOrder(Step(s, op).s.core) <==> SettlesInOrder(s.core) && !Overtakes(s, op)
  {
    assert SettlesOnce(s.core);
    StepTrail(s, op);
    hide Base, Ranked, Step, Possible, SettlesOnce, SettlesInOrder, TrailGrows, TrailOvertaken;
    if Overtakes(s, op) {
      OvertakingLosesOrder(s.core, Step(s, op).s.core);
    } else {
      GrowingKeepsOrder(s.core, Step(s, op).s.core);
    }
  }

  // ---- Runs without answers to detached reads ----------------------------------------------------

  /** No default read waits while bytes are queued. */
  predicate NoneWaitsInVain(s: Stream) {
    s.core.kind == DefaultReader && s.core.requests != [] ==> s.size == 0
  }

  /** A detached read is answered while default reads wait: its memory is queued past them. */
  predicate QueuesPastReads(s: Stream, op: Op) {
    && (op.Answer? || op.AnswerWithView?)
    && s.core.kind == DefaultReader && s.core.requests != [] && Detached(s.pending)
  }

  lemma {:induction false} ServeLeavesNone(s: Stream, chunk: seq<byte>)
    requires Serve(s, chunk).Returns?
    ensures NoneWaitsInVain(Serve(s, chunk).s)
    decreases |s.core.requests|
  {
    hide Evaluate;
    if s.core.requests != [] && s.size != 0 {
      var t := s.(core := s.core.(requests := s.core.requests[1..]),
                  queue := s.queue[1..], size := s.size - |s.queue[0]|);
      ServeLeavesNone(SettleWith(PullIfNeeded(t), Served(s.core.requests[0], s.queue[0])), chunk);
    }
  }

  lemma EnqueueLeavesNone(s: Stream, chunk: seq<byte>)
    requires Base(s) && NoneWaitsInVain(s) && Enqueue(s, chunk).Returns?
    ensures NoneWaitsInVain(Enqueue(s, chunk).s)
  {
    hide SettlesOnce, FollowsProtocol, Shapes, Accounts, Evaluate, ShiftDetached, Process, Serve;
    if chunk != [] && CanCloseOrEnqueue(s) {
      var p := s.(produced := s.produced + chunk);
      ShiftLeavesLine(p);
      if s.core.kind == DefaultReader { ServeLeavesNone(ShiftDetached(p), chunk); }
    }
  }

  lemma AnswerLeavesNone(s: Stream, bytes: seq<byte>)
    requires Base(s) && Ranked(s) && NoneWaitsInVain(s) && s.pending != [] && RespondInternal(s, bytes).Returns?
    requires s.core.kind == DefaultReader && s.core.requests != [] ==> !Detached(s.pending)
    ensures NoneWaitsInVain(RespondInternal(s, bytes).s)
  {
    hide SettlesOnce, FollowsProtocol, WellShaped, Unsatisfied, Accounts, Evaluate, Process, DrainEvents;
    if s.core.kind == DefaultReader && !Detached(s.pending) {
      assert Attached(s.pending)[0].element == 1;
    }
  }

  lemma ReadLeavesNone(s: Stream, op: Op)
    requires Base(s) && NoneWaitsInVain(s) && Possible(s, op) && Step(s, op).Returns?
    requires op.DefaultRead? || op.ByobRead?
    ensures NoneWaitsInVain(Step(s, op).s)
  {
    hide SettlesOnce, FollowsProtocol, Shapes, NoEmptyChunk, Flatten, Evaluate, Ready, CopyCount, FilledFrom,
      QueueAfter;
  }

  lemma StepLeavesNone(s: Stream, op: Op)
    requires Base(s) && Ranked(s) && Possible(s, op) && Step(s, op).Returns?
    requires NoneWaitsInVain(s) && !QueuesPastReads(s, op)
    ensures NoneWaitsInVain(Step(s, op).s) && !Overtakes(s, op)
  {
    hide Ranked, Evaluate, Fulfil, Reject, Enqueue, RespondInternal, ReadByob, ReadDefault,
      SettlesOnce, FollowsProtocol, Shapes, Accounts, ShouldCallPull;
    SpentIsRanked(s);
    match op
    case DefaultRead => ReadLeavesNone(s, op);
    case ByobRead(_, _, _, _, _) => ReadLeavesNone(s, op);
    case EnqueueChunk(chunk) => EnqueueLeavesNone(s, chunk);
    case Answer(bytes) =>
      if s.slot == Live && s.pending[0].rest != [] { AnswerLeavesNone(s.(slot := Spent), bytes); }
    case AnswerWithView(view, _) =>
      if s.slot == Live && RespondInternal(s.(slot := Spent), view).Returns? {
        AnswerLeavesNone(s.(slot := Spent), view);
      }
    case _ =>
  }
}
