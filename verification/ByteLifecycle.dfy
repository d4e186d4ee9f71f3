/** What holds in every reachable state of a byte stream, whatever its source and readers do. */
module ByteLifecycle {
  import opened Chunks
  import opened StreamCore
  import opened Wrappers
  import opened PullProtocol
  import opened PullInto
  import opened ByteStream

  /** The controller's byte count is the length of what it has queued, chunk by chunk non-empty. */
  ghost predicate Accounts(s: Stream) {
    s.size == |Flatten(s.queue)| && NoEmptyChunk(s.queue)
  }

  ghost predicate Base(s: Stream) {
    && Accounts(s)
    && Shapes(s.pending)
    && Lifecycle(s.core)
    && SettlesOnce(s.core)
    && FollowsProtocol(s.pull)
    && |s.asks| == s.core.issued
    && (s.core.st == Errored ==> s.queue == [] && s.pending == [] && s.slot == Vacant && s.dropped)
    && (s.closeRequested ==> s.core.st != Readable)
    && (s.slot == Live ==> s.pending != [])
    && (s.dropped ==> s.core.st != Readable && s.queue == [] && s.pending == [])
  }

  lemma NewStreamIsBase(mark: HighWaterMark, auto: nat)
    ensures Base(NewStream(mark, auto))
  {
    var s := NewStream(mark, auto);
    assert Trail(s.core) == [];
  }

  lemma PullIfNeededKeepsBase(s: Stream)
    requires Base(s)
    ensures Base(PullIfNeeded(s))
  {
    EvaluateFollowsProtocol(s.pull, s.core.st, ShouldCallPull(s));
  }

  lemma ErrorInternalKeepsBase(s: Stream, reason: Reason)
    requires Base(s)
    ensures Base(ErrorInternal(s, reason))
    ensures ErrorInternal(s, reason).core.requests == [] || s.core.st == Closed
  {
    BulkSettlingKeepsTrail(s.core, reason);
  }

  lemma PushChunkAccounts(s: Stream, chunk: seq<byte>)
    requires Accounts(s) && chunk != []
    ensures Accounts(PushChunk(s, chunk))
  {
    FlattenPush(s.queue, chunk);
  }

  lemma CloseKeepsBase(s: Stream)
    requires Base(s)
    ensures Base(Close(s).s)
  {
    BulkSettlingKeepsTrail(s.core, PendingNotAligned);
  }

  /** The loop settles requests from the head of the queue, in order, one event each. */
  lemma {:induction false} ProcessSettlesInOrder(
      queue: seq<seq<byte>>, pending: seq<Descriptor>, requests: seq<nat>, st: State)
    requires NoEmptyChunk(queue) && Shapes(pending)
    requires Process(queue, pending, requests, st).Done?
    ensures var r := Process(queue, pending, requests, st);
            && Ids(r.events) + r.requests == requests
            && NoEmptyChunk(r.queue) && Shapes(r.pending)
            && |Flatten(r.queue)| <= |Flatten(queue)|
    decreases |pending|
  {
    if pending != [] && |Flatten(queue)| > 0 {
      FillMovesPrefix(queue, pending[0]);
      var d, left := FilledFrom(queue, pending[0]), QueueAfter(queue, pending[0]);
      assert WellShaped(d) by { assert WellShaped(pending[0]); }
      if Ready(|Flatten(queue)|, pending[0]) {
        ProcessSettlesInOrder(left, pending[1..], requests[1..], st);
        var rest := Process(left, pending[1..], requests[1..], st);
        IdsPush(CommitEvent(d, requests[0], st), rest.events, requests, rest.requests);
      }
    }
  }

  lemma IdsPush(e: Event<seq<byte>>, events: seq<Event<seq<byte>>>, requests: seq<nat>, left: seq<nat>)
    requires requests != [] && e.id == requests[0]
    requires Ids(events) + left == requests[1..]
    ensures Ids([e] + events) + left == requests
  {
    IdsConcat([e], events);
    assert Ids([e]) == [requests[0]];
    assert Ids([e] + events) + left == [requests[0]] + (Ids(events) + left);
  }

  lemma ProcessKeepsBase(s: Stream)
    requires Base(s) && s.slot != Live && s.core.st == Readable
    requires ProcessDescriptors(s).Returns?
    ensures Base(ProcessDescriptors(s).s)
    ensures ProcessDescriptors(s).s.core.st == Readable
  {
    ProcessSettlesInOrder(s.queue, s.pending, s.core.requests, s.core.st);
    var r := Process(s.queue, s.pending, s.core.requests, s.core.st);
    EventsKeepTrail(s.core, r.events, r.requests);
    hide Process, Flatten, NoEmptyChunk, Shapes, FollowsProtocol, Trail, Distinct, Ids;
  }

  /** Events for the first requests leave the trail as it was. */
  lemma EventsKeepTrail(c: Core<seq<byte>>, events: seq<Event<seq<byte>>>, left: seq<nat>)
    requires Ids(events) + left == c.requests
    ensures Trail(c.(requests := left, log := c.log + events)) == Trail(c)
  {
    IdsConcat(c.log, events);
    assert Ids(c.log) + (Ids(events) + left) == (Ids(c.log) + Ids(events)) + left;
  }


  lemma {:induction false} ServeKeepsBase(s: Stream, chunk: seq<byte>)
    requires Base(s) && s.slot != Live && s.core.st == Readable && chunk != []
    requires s.core.kind == DefaultReader
    ensures Serve(s, chunk).Returns? && Base(Serve(s, chunk).s)
    ensures Serve(s, chunk).s.core.st == Readable
    decreases |s.core.requests|
  {
    PushChunkAccounts(s, chunk);
    if s.core.requests != [] {
      EmptyQueueHoldsNothing(s.queue);
      if s.size == 0 {
        SettleHeadKeepsTrail(s.core, Served(s.core.requests[0], chunk));
      } else {
        var e := Served(s.core.requests[0], s.queue[0]);
        SettleHeadKeepsTrail(s.core, e);
        var t := s.(core := s.core.(requests := s.core.requests[1..]),
                    queue := s.queue[1..], size := s.size - |s.queue[0]|);
        EvaluateFollowsProtocol(t.pull, t.core.st, ShouldCallPull(t));
        ServeKeepsBase(SettleWith(PullIfNeeded(t), e), chunk);
      }
    }
  }

  lemma ShiftDetachedKeepsBase(s: Stream)
    requires Base(s) && s.core.st == Readable
    ensures Base(ShiftDetached(s)) && ShiftDetached(s).slot != Live
    ensures ShiftDetached(s).core == s.core
  {
    if s.pending != [] {
      var d := s.pending[0];
      assert WellShaped(d);
      if d.kind == NoReader && d.Filled() > 0 {
        PushChunkAccounts(s, d.data + d.rest);
      }
    }
  }

  lemma EnqueueKeepsBase(s: Stream, chunk: seq<byte>)
    requires Base(s)
    requires Enqueue(s, chunk).Returns?
    ensures Base(Enqueue(s, chunk).s)
  {
    if chunk != [] && CanCloseOrEnqueue(s) {
      var t := s.(produced := s.produced + chunk);
      ShiftDetachedKeepsBase(t);
      var u := ShiftDetached(t);
      PushChunkAccounts(u, chunk);
      match s.core.kind {
        case DefaultReader => ServeKeepsBase(u, chunk); PullIfNeededKeepsBase(Serve(u, chunk).s);
        case ByobReader =>
          ProcessKeepsBase(PushChunk(u, chunk));
          PullIfNeededKeepsBase(ProcessDescriptors(PushChunk(u, chunk)).s);
        case NoReader => PullIfNeededKeepsBase(PushChunk(u, chunk));
      }
    }
  }

  lemma CommitKeepsBase(s: Stream, d: Descriptor)
    requires Base(s) && s.core.st == Readable && s.slot != Live && CommitThenProcess(s, d).Returns?
    ensures Base(CommitThenProcess(s, d).s)
  {
    var e := CommitEvent(d, s.core.requests[0], s.core.st);
    hide Flatten, NoEmptyChunk, Shapes, FollowsProtocol, Trail, CommitEvent, ProcessDescriptors;
    SettleHeadKeepsTrail(s.core, e);
    var core := Settle(s.core, e).(requests := s.core.requests[1..]);
    TrailDecides(s.core, core);
    ProcessKeepsBase(s.(core := core));
  }

  lemma RequeueKeepsBase(s: Stream, chunk: seq<byte>)
    requires Base(s) && s.core.st == Readable && chunk != []
    ensures Base(PushChunk(s, chunk)) && PushChunk(s, chunk).core == s.core && PushChunk(s, chunk).slot == s.slot
  {
    PushChunkAccounts(s, chunk);
    hide Flatten, NoEmptyChunk, Shapes, FollowsProtocol, SettlesOnce;
  }

  lemma PopKeepsBase(s: Stream)
    requires Base(s) && s.core.st == Readable && s.slot != Live && s.pending != []
    ensures Base(s.(pending := s.pending[1..]))
  {
    hide Flatten, NoEmptyChunk, WellShaped, FollowsProtocol, SettlesOnce;
  }

  lemma RespondReadableKeepsBase(s: Stream)
    requires Base(s) && s.core.st == Readable && s.slot != Live && s.pending != []
    requires s.pending[0].data != []
    requires RespondReadable(s).Returns?
    ensures Base(RespondReadable(s).s)
  {
    hide Base, PushChunk, ProcessDescriptors, CommitThenProcess, PullIfNeeded;
    var d := s.pending[0];
    var tail := d.Filled() % d.element;
    if d.kind == NoReader {
      RequeueKeepsBase(s, d.data + d.rest);
      var t := PushChunk(s, d.data + d.rest);
      if t.core.kind == ByobReader {
        ProcessKeepsBase(t);
        PullIfNeededKeepsBase(ProcessDescriptors(t).s);
      } else {
        PullIfNeededKeepsBase(t);
      }
    } else if d.Filled() >= d.min {
      var t := s.(pending := s.pending[1..]);
      PopKeepsBase(s);
      if tail > 0 { RequeueKeepsBase(t, d.data[d.Filled() - tail..]); }
      var u := if tail > 0 then PushChunk(t, d.data[d.Filled() - tail..]) else t;
      if u.core.kind == ByobReader {
        CommitKeepsBase(u, d.(data := d.View()));
        PullIfNeededKeepsBase(CommitThenProcess(u, d.(data := d.View())).s);
      } else {
        PullIfNeededKeepsBase(u);
      }
    }
  }

  lemma DrainKeepsTrail(s: Stream)
    requires |s.core.requests| <= |s.pending|
    ensures Trail(s.core.(requests := [], log := s.core.log + DrainEvents(s.pending, s.core.requests))) == Trail(s.core)
  {
    var events := DrainEvents(s.pending, s.core.requests);
    IdsConcat(s.core.log, events);
    assert Ids(events) == s.core.requests;
  }

  lemma RespondInternalKeepsBase(s: Stream, bytes: seq<byte>)
    requires Base(s) && s.slot != Live && s.pending != []
    requires RespondInternal(s, bytes).Returns?
    ensures Base(RespondInternal(s, bytes).s)
  {
    if s.core.st == Closed && bytes == [] {
      var t := s.(slot := Vacant);
      if s.core.kind == ByobReader {
        DrainKeepsTrail(t);
        PullIfNeededKeepsBase(t.(pending := t.pending[|t.core.requests|..],
             core := t.core.(requests := [], log := t.core.log + DrainEvents(t.pending, t.core.requests))));
      } else {
        PullIfNeededKeepsBase(t.(pending := t.pending[1..]));
      }
    } else if s.core.st == Readable && bytes != [] && |bytes| <= |s.pending[0].rest| {
      var d := s.pending[0].Absorb(bytes);
      assert WellShaped(s.pending[0]) && d.Length() == s.pending[0].Length();
      RespondReadableKeepsBase(s.(slot := Vacant, pending := s.pending[0 := d], produced := s.produced + bytes));
    }
  }

  lemma FreshDescriptor(memory: seq<byte>, offset: nat, element: Positive, len: nat, min: nat)
    requires |memory| == len * element && 0 < min <= len
    ensures var d := Descriptor([], memory, offset, min * element, element, ByobReader);
            WellShaped(d) && Unsatisfied(d)
    ensures min < len <==> min * element < |memory|
  {
    ProductIsAligned(min, element);
    ProductIsAligned(len, element);
    ProductOrder(min, len, element);
  }

  lemma ProductIsAligned(k: nat, m: Positive)
    ensures (k * m) % m == 0
  {
    var a := k * m;
    assert a == m * k + 0;
    DivisionIsUnique(a, k, 0, m);
  }

  lemma ProductOrder(a: nat, b: nat, m: Positive)
    requires 0 < a <= b
    ensures 0 < a * m <= b * m
    ensures a < b <==> a * m < b * m
  {
    MulMono(m, a);
    MulMono(m, b - a);
    assert b * m - a * m == m * (b - a);
  }

  /** A read settled at once, from the queue or without it. */
  lemma SettledKeepsBase(s: Stream, t: Stream, ask: Ask, e: Event<seq<byte>>)
    requires Base(s) && e.id == s.core.issued
    requires t == s.(core := Issue(s.core), asks := s.asks + [ask], pull := t.pull, queue := t.queue, size := t.size)
    requires Accounts(t) && FollowsProtocol(t.pull) && (s.queue == [] ==> t.queue == [])
    ensures Base(SettleWith(t, e))
  {
    hide Flatten, NoEmptyChunk, Shapes, FollowsProtocol, SettlesOnce;
    SettleNow(s.core, e);
  }

  /** A read that waits. */
  lemma WaitingKeepsBase(s: Stream, t: Stream, d: Descriptor, ask: Ask)
    requires Base(s) && WellShaped(d) && s.core.st != Errored && s.core.kind == ByobReader
    requires t == s.(core := Issue(s.core), asks := s.asks + [ask], queue := t.queue, size := t.size)
    requires Accounts(t) && (s.dropped ==> s.pending != [])
    ensures Base(AddPending(t, d, s.core.issued))
  {
    hide Flatten, NoEmptyChunk, WellShaped, FollowsProtocol, SettlesOnce;
    Wait(s.core);
    IssueKeepsOnce(s.core);
  }

  lemma IssueKeepsOnce(c: Core<seq<byte>>)
    requires SettlesOnce(c)
    ensures SettlesOnce(Issue(c))
  {
    assert Trail(Issue(c)) == Trail(c);
  }

  lemma ReadFromQueueKeepsBase(s: Stream, t: Stream, d: Descriptor, ask: Ask)
    requires Base(s) && s.core.st == Readable && s.core.kind == ByobReader && WellShaped(d) && Unsatisfied(d)
    requires t == s.(core := Issue(s.core), asks := s.asks + [ask])
    requires ReadFromQueue(t, d, s.core.issued).Returns?
    ensures Base(ReadFromQueue(t, d, s.core.issued).s)
  {
    FillFacts(s.queue, d);
    FillMovesPrefix(s.queue, d);
    assert NoEmptyChunk(s.queue) && !s.dropped && !t.closeRequested;
    var id, filled := s.core.issued, FilledFrom(s.queue, d);
    var u := t.(queue := QueueAfter(t.queue, d), size := t.size - CopyCount(|Flatten(t.queue)|, d));
    DropFirstFlattens(s.queue, CopyCount(|Flatten(s.queue)|, d));
    NothingLeftOfNone(s.queue, d);
    assert Accounts(u);
    hide Base, WellShaped, Unsatisfied, Flatten, Ready, CopyCount, FilledFrom, QueueAfter, NoEmptyChunk, Evaluate;
    if Ready(|Flatten(s.queue)|, d) {
      PullIfNeededFollows(u, s);
      SettledKeepsBase(s, PullIfNeeded(u), ask, Served(id, filled.View()));
    } else {
      WaitingKeepsBase(s, u, filled, ask);
      PullIfNeededKeepsBase(AddPending(u, filled, id));
    }
  }

  lemma NothingLeftOfNone(queue: seq<seq<byte>>, d: Descriptor)
    requires 0 <= CopyCount(|Flatten(queue)|, d) && NoEmptyChunk(queue)
    ensures queue == [] ==> QueueAfter(queue, d) == []
  {
    FillMovesPrefix(queue, d);
  }

  lemma PullIfNeededFollows(s: Stream, before: Stream)
    requires Base(before) && s.pull == before.pull
    ensures FollowsProtocol(PullIfNeeded(s).pull)
  {
    EvaluateFollowsProtocol(s.pull, s.core.st, ShouldCallPull(s));
  }

  lemma ReadByobKeepsBase(s: Stream, memory: seq<byte>, offset: nat, element: Positive, len: nat, min: nat)
    requires Base(s) && |memory| == len * element
    requires ReadByob(s, memory, offset, element, len, min).Returns?
    ensures Base(ReadByob(s, memory, offset, element, len, min).s)
  {
    if s.core.kind == ByobReader && len > 0 && min > 0 && min <= len {
      FreshDescriptor(memory, offset, element, len, min);
      var id := s.core.issued;
      var ask := ByobAsk(element, min * element, |memory|);
      var d := Descriptor([], memory, offset, min * element, element, ByobReader);
      var t := s.(core := Issue(s.core), asks := s.asks + [ask]);
      assert Accounts(t) && FollowsProtocol(t.pull) && (s.core.st == Errored ==> s.pending == []);
      assert s.dropped ==> s.core.st != Readable && s.pending == [];
      hide Base, Accounts, FollowsProtocol, WellShaped, Unsatisfied, ReadFromQueue, AddPending;
      if s.core.st == Errored {
        SettledKeepsBase(s, t, ask, Failed(id, StoredError(s.core)));
      } else if s.pending != [] {
        WaitingKeepsBase(s, t, d, ask);
      } else if s.core.st == Closed {
        SettledKeepsBase(s, t, ask, Ended(id, Some([])));
      } else if s.size > 0 {
        ReadFromQueueKeepsBase(s, t, d, ask);
      } else {
        WaitingKeepsBase(s, t, d, ask);
        PullIfNeededKeepsBase(AddPending(t, d, id));
      }
    }
  }

  lemma ReadDefaultKeepsBase(s: Stream)
    requires Base(s)
    ensures ReadDefault(s).Returns? && Base(ReadDefault(s).s)
  {
    if s.core.kind == DefaultReader {
      var id := s.core.issued;
      var t := s.(core := Issue(s.core), asks := s.asks + [DefaultAsk]);
      SettleNow(s.core, Failed(id, StoredError(s.core)));
      SettleNow(s.core, Ended(id, None));
      Wait(s.core);
      EmptyQueueHoldsNothing(s.queue);
      if s.core.st == Readable {
        if s.size > 0 {
          SettleNow(s.core, Served(id, s.queue[0]));
          var u := t.(queue := t.queue[1..], size := t.size - |t.queue[0]|);
          EvaluateFollowsProtocol(u.pull, u.core.st, ShouldCallPull(u));
        } else {
          var u := if t.auto == 0 then t else t.(pending := t.pending + [AutoDescriptor(t.auto)]);
          PullIfNeededKeepsBase(u.(core := u.core.(requests := u.core.requests + [id])));
        }
      }
    }
  }

  lemma ReaderOpKeepsBase(s: Stream, op: Op)
    requires Base(s) && (op.AcquireReader? || op.Release? || op.CancelStream? || op.ByobRequest?)
    ensures Step(s, op).Returns? && Base(Step(s, op).s)
  {
    hide Flatten, NoEmptyChunk, FollowsProtocol, SettlesOnce, WellShaped, Trail;
    BulkSettlingKeepsTrail(s.core, ReaderReleased);
    TrailDecides(s.core, Step(s, op).s.core);
    if op.AcquireReader? { UnlockedTrail(s.core, op.kind); }
    NothingAccounts(s);
    DetachKeepsShapes(s.pending);
  }

  lemma UnlockedTrail(c: Core<seq<byte>>, kind: ReaderKind)
    ensures Trail(c.(kind := kind)) == Trail(c)
  {
  }

  lemma TrailDecides(c: Core<seq<byte>>, c': Core<seq<byte>>)
    requires SettlesOnce(c) && c'.issued == c.issued
    ensures Trail(c') == Trail(c) ==> SettlesOnce(c')
  {
  }

  lemma NothingAccounts(s: Stream)
    ensures Accounts(ResetQueue(s)) && Shapes([])
  {
  }

  lemma DetachKeepsShapes(pending: seq<Descriptor>)
    requires Shapes(pending)
    ensures Shapes(Detach(pending))
  {
    if pending != [] { assert WellShaped(pending[0]); }
  }

  lemma ReactionKeepsBase(s: Stream, pull: Pull)
    requires Base(s) && FollowsProtocol(pull)
    ensures Base(s.(pull := pull))
  {
  }

  /** The protocol's own facts about the two reactions to `start`. */
  lemma StartKeepsProtocol(s: Stream)
    requires Base(s)
    ensures FollowsProtocol(s.pull.(settled := true)) && FollowsProtocol(s.pull.(started := true, settled := true))
  {
  }

  lemma SpentKeepsBase(s: Stream)
    requires Base(s)
    ensures s.slot == Live ==> s.pending != [] && Base(s.(slot := Spent))
  {
    hide Flatten, NoEmptyChunk, Shapes, FollowsProtocol, SettlesOnce;
  }

  /** Every step of every run keeps the base invariant. */
  lemma StepKeepsBase(s: Stream, op: Op)
    requires Base(s) && Possible(s, op) && Step(s, op).Returns?
    ensures Base(Step(s, op).s)
  {
    assert FollowsProtocol(s.pull);
    SpentKeepsBase(s);
    hide Base, FollowsProtocol, Evaluate, Fulfil, Reject, Enqueue, RespondInternal, RespondWithNewView, ReadByob,
      ReadDefault, Close, ErrorInternal, GetReader, ReleaseLock, Cancel, GetByobRequest, PullIfNeeded, ShouldCallPull;
    match op
    case DefaultRead => ReadDefaultKeepsBase(s);
    case ByobRead(memory, offset, element, len, min) => ReadByobKeepsBase(s, memory, offset, element, len, min);
    case EnqueueChunk(chunk) => EnqueueKeepsBase(s, chunk);
    case Answer(bytes) =>
      if s.slot == Live && s.pending[0].rest != [] { RespondInternalKeepsBase(s.(slot := Spent), bytes); }
    case AnswerWithView(view, at) => ViewKeepsBase(s, view, at);
    case CloseStream => CloseKeepsBase(s);
    case ErrorStream(reason) => ErrorInternalKeepsBase(s, reason);
    case StartFulfilled =>
      StartKeepsProtocol(s);
      ReactionKeepsBase(s, s.pull.(started := true, settled := true));
      PullIfNeededKeepsBase(s.(pull := s.pull.(started := true, settled := true)));
    case StartRejected(reason) =>
      StartKeepsProtocol(s);
      ReactionKeepsBase(s, s.pull.(settled := true));
      ErrorInternalKeepsBase(s.(pull := s.pull.(settled := true)), reason);
    case PullFulfilled => FulfilKeepsBase(s);
    case PullRejected(reason) =>
      RejectFollowsProtocol(s.pull);
      ReactionKeepsBase(s, Reject(s.pull));
      ErrorInternalKeepsBase(s.(pull := Reject(s.pull)), reason);
    case _ => ReaderOpKeepsBase(s, op);
  }

  lemma FulfilKeepsBase(s: Stream)
    requires Base(s) && s.pull.outstanding
    ensures Base(s.(pull := Fulfil(s.pull, s.core.st, ShouldCallPull(s))))
  {
    FulfilFollowsProtocol(s.pull, s.core.st, ShouldCallPull(s));
    hide Base, Fulfil;
    ReactionKeepsBase(s, Fulfil(s.pull, s.core.st, ShouldCallPull(s)));
  }

  lemma ViewKeepsBase(s: Stream, view: seq<byte>, at: nat)
    requires Base(s) && RespondWithNewView(s, view, at).Returns?
    ensures Base(RespondWithNewView(s, view, at).s)
  {
    if s.slot == Live { AnswerWithViewKeepsBase(s, view, at); }
  }

  lemma AnswerWithViewKeepsBase(s: Stream, view: seq<byte>, at: nat)
    requires Base(s) && s.slot == Live && RespondWithNewView(s, view, at).Returns?
    ensures Base(RespondWithNewView(s, view, at).s)
  {
    var t := s.(slot := Spent);
    var d := t.pending[0];
    if (s.core.st == Readable) != (view == []) && s.core.st != Errored {
      if !(d.offset + d.Filled() != at || d.Length() != |view| || d.Filled() + |view| > d.Length()) {
        RespondInternalKeepsBase(t, view);
      }
    }
  }
}
