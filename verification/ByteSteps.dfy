/** Every regular step of a byte stream returns, unless its loop hangs, and keeps `Sound`. */
module ByteSteps {
  import opened Chunks
  import opened StreamCore
  import opened Wrappers
  import opened PullProtocol
  import opened PullInto
  import opened ByteStream
  import opened ByteLifecycle
  import opened ByteDelivery

  /** The part of `Sound` that does not look at the pull protocol. */
  ghost predicate Kept(s: Stream) {
    && SettlesInOrder(s.core)
    && AllPending(s.pending) && FrontOnly(s.pending)
    && LockStep(s)
    && Starved(s)
    && AlignedWhenClosed(s)
    && AllFit(s.core.log, s.asks)
    && Conserved(s)
  }

  lemma FitPush(log: seq<Event<seq<byte>>>, e: Event<seq<byte>>, asks: seq<Ask>)
    requires AllFit(log, asks) && e.id < |asks| && Fits(e, asks[e.id])
    ensures AllFit(log + [e], asks)
  {
  }

  lemma FitBulk(c: Core<seq<byte>>, asks: seq<Ask>, reason: Reason)
    requires AllFit(c.log, asks) && SettlesOnce(c) && |asks| == c.issued
    ensures AllFit(c.log + FailAll(c.requests, reason), asks)
    ensures (forall i :: 0 <= i < |c.requests| ==> c.requests[i] < |asks| && asks[c.requests[i]] == DefaultAsk)
            ==> AllFit(c.log + EndAll(c.requests), asks)
  {
    WaitingIdsInBounds(c);
  }

  lemma WaitingIdsInBounds(c: Core<seq<byte>>)
    requires SettlesOnce(c)
    ensures forall i :: 0 <= i < |c.requests| ==> c.requests[i] < c.issued
    ensures forall i :: 0 <= i < |c.log| ==> c.log[i].id < c.issued
  {
    forall i | 0 <= i < |c.requests| ensures c.requests[i] < c.issued {
      assert Trail(c)[|c.log| + i] == c.requests[i];
    }
    forall i | 0 <= i < |c.log| ensures c.log[i].id < c.issued {
      assert Trail(c)[i] == c.log[i].id;
    }
  }

  lemma KeptIgnoresPull(s: Stream)
    requires Kept(s)
    ensures Kept(PullIfNeeded(s))
  {
  }

  // ---- Closing, erroring, releasing -------------------------------------------------------------

  lemma ErrorInternalKeeps(s: Stream, reason: Reason)
    requires Base(s) && AllFit(s.core.log, s.asks) && SettlesInOrder(s.core) && s.core.st == Readable
    requires Delivered(s.core.log) <= s.produced
    ensures Kept(ErrorInternal(s, reason))
  {
    hide Flatten, Delivered, Ids, Fits;
    BulkSettlingKeepsTrail(s.core, reason);
    BulkSettling(s.core.log, s.core.requests, reason);
    FitBulk(s.core, s.asks, reason);
  }

  lemma DeliveredIsPrefix(s: Stream)
    requires Conserved(s)
    ensures Delivered(s.core.log) <= s.produced
  {
  }

  /** What closing and erroring do to the log and the request queue. */
  lemma BulkKeeps(s: Stream, reason: Reason)
    requires Base(s) && SettlesInOrder(s.core) && AllFit(s.core.log, s.asks)
    ensures SettlesInOrder(CloseCore(s.core)) && SettlesInOrder(ErrorCore(s.core, reason))
    ensures Delivered(CloseCore(s.core).log) == Delivered(s.core.log)
    ensures Delivered(ErrorCore(s.core, reason).log) == Delivered(s.core.log)
    ensures AllFit(ErrorCore(s.core, reason).log, s.asks)
    ensures (s.core.kind == DefaultReader ==>
               forall i :: 0 <= i < |s.core.requests| ==>
                 s.core.requests[i] < |s.asks| && s.asks[s.core.requests[i]] == DefaultAsk)
            ==> AllFit(CloseCore(s.core).log, s.asks)
  {
    hide Increasing, Distinct, Trail, Fits, Delivered, Flatten, NoEmptyChunk, Shapes, FollowsProtocol;
    BulkSettlingKeepsTrail(s.core, reason);
    BulkSettling(s.core.log, s.core.requests, reason);
    FitBulk(s.core, s.asks, reason);
  }

  lemma AlignedCloseKeeps(s: Stream, t: Stream)
    requires Sound(s) && CanCloseOrEnqueue(s)
    requires s.pending != [] ==> s.pending[0].Filled() % s.pending[0].element == 0
    requires t == s.(closeRequested := t.closeRequested, core := CloseCore(s.core))
    ensures Kept(t)
  {
    BulkKeeps(s, PendingNotAligned);
    ClosedCore(s.core, PendingNotAligned);
    hide Base, AllPending, FrontOnly, AllFit, Flatten, Delivered, CloseCore, SettlesInOrder, LockStep;
    assert LockStep(t) by { ClosingKeepsStep(s, t); }
    assert AllFit(t.core.log, t.asks) by {
      if s.core.kind == DefaultReader { WaitingDefaults(s); }
    }
  }

  lemma WaitingDefaults(s: Stream)
    requires LockStep(s) && s.core.kind == DefaultReader
    ensures forall i :: 0 <= i < |s.core.requests| ==>
              s.core.requests[i] < |s.asks| && s.asks[s.core.requests[i]] == DefaultAsk
  {
  }

  lemma ClosingKeepsStep(s: Stream, t: Stream)
    requires LockStep(s) && t.pending == s.pending && t.asks == s.asks && t.core.kind == s.core.kind
    requires t.core.requests == if s.core.kind == DefaultReader then [] else s.core.requests
    requires t.core.st != Readable
    ensures LockStep(t)
  {
    hide Matches;
  }

  lemma UnalignedCloseKeeps(s: Stream, t: Stream)
    requires Sound(s)
    requires t == ResetQueue(s).(closeRequested := t.closeRequested, core := ErrorCore(s.core, PendingNotAligned))
    ensures Kept(t)
  {
    DeliveredIsPrefix(s);
    BulkKeeps(s, PendingNotAligned);
    hide Base, WellShaped, Unsatisfied, AllFit, Matches, Flatten, Delivered, ErrorCore, SettlesInOrder, Conserved;
    ClosedCore(s.core, PendingNotAligned);
    assert DeliveredWithin(t);
  }

  predicate DeliveredWithin(s: Stream) {
    s.dropped && Delivered(s.core.log) <= s.produced
  }

  lemma SoundIsKept(s: Stream)
    requires Sound(s)
    ensures Kept(s)
  {
    hide Base, AllFit, LockStep, Conserved, AllPending, FrontOnly, SettlesInOrder;
  }

  lemma CloseKeeps(s: Stream)
    requires Sound(s)
    ensures Kept(Close(s).s)
  {
    SoundIsKept(s);
    hide Sound, Kept, CloseCore, ErrorCore;
    if CanCloseOrEnqueue(s) {
      if s.pending != [] && s.pending[0].Filled() % s.pending[0].element > 0 {
        UnalignedCloseKeeps(s, Close(s).s);
      } else {
        AlignedCloseKeeps(s, Close(s).s);
      }
    }
  }

  lemma ClosedCore(c: Core<seq<byte>>, reason: Reason)
    ensures CloseCore(c).st == Closed && CloseCore(c).kind == c.kind && CloseCore(c).issued == c.issued
    ensures CloseCore(c).requests == if c.kind == DefaultReader then [] else c.requests
    ensures ErrorCore(c, reason).st == Errored && ErrorCore(c, reason).kind == c.kind
    ensures ErrorCore(c, reason).requests == [] && ErrorCore(c, reason).issued == c.issued
  {
  }

  lemma DetachKeepsPending(pending: seq<Descriptor>)
    requires AllPending(pending)
    ensures AllPending(Detach(pending))
  {
    if pending != [] {
      assert WellShaped(pending[0]) && Unsatisfied(pending[0]);
    }
  }

  lemma ReleaseKeeps(s: Stream)
    requires Sound(s)
    ensures Kept(ReleaseLock(s).s)
  {
    hide WellShaped, Unsatisfied, Fits, Matches, Flatten, Delivered, EndAll, FailAll, Ids;
    DetachKeepsPending(s.pending);
    BulkSettlingKeepsTrail(s.core, ReaderReleased);
    BulkSettling(s.core.log, s.core.requests, ReaderReleased);
    FitBulk(s.core, s.asks, ReaderReleased);
  }

  lemma CancelKeeps(s: Stream)
    requires Sound(s)
    ensures Kept(Cancel(s).s)
  {
    DeliveredIsPrefix(s);
  }

  lemma GetReaderKeeps(s: Stream, kind: ReaderKind)
    requires Sound(s)
    ensures Kept(GetReader(s, kind).s)
  {
    if s.core.kind == NoReader && kind != NoReader {
      var t := GetReader(s, kind).s;
      assert Trail(t.core) == Trail(s.core);
    }
  }

  // ---- Reading ----------------------------------------------------------------------------------

  lemma ReadDefaultKeeps(s: Stream)
    requires Sound(s)
    ensures Kept(ReadDefault(s).s)
  {
    if s.core.kind == DefaultReader {
      var id := s.core.issued;
      var t := s.(core := Issue(s.core), asks := s.asks + [DefaultAsk]);
      EmptyQueueHoldsNothing(s.queue);
      WaitingIdsInBounds(s.core);
      match s.core.st {
        case Closed => SettleKeeps(s, t, DefaultAsk, Ended(id, None));
        case Errored => SettleKeeps(s, t, DefaultAsk, Failed(id, StoredError(s.core)));
        case Readable =>
          if s.size > 0 {
            var u := t.(queue := t.queue[1..], size := t.size - |t.queue[0]|);
            SettleKeeps(s, u, DefaultAsk, Served(id, s.queue[0]));
          } else {
            Wait(s.core);
            WaitDefault(s);
          }
      }
    }
  }

  lemma RegroupAfter(a: seq<byte>, b: seq<byte>, c: seq<byte>, d: seq<byte>, e: seq<byte>, f: seq<byte>)
    requires b + c == d + (e + f)
    ensures a + b + c == (a + d) + e + f
  {
    assert a + b + c == a + (b + c);
    assert (a + d) + e + f == a + (d + (e + f));
  }

  /** A read answered on the spot, with what the front of the queue held or with nothing. */
  lemma SettleKeeps(s: Stream, t: Stream, ask: Ask, e: Event<seq<byte>>)
    requires Sound(s) && s.core.requests == []
    requires e.id == s.core.issued && Fits(e, ask)
    requires t == s.(core := Issue(s.core), asks := s.asks + [ask], queue := t.queue, size := t.size)
    requires t.queue == s.queue || s.pending == []
    requires ViewOf(e) + Flatten(t.queue) == Flatten(s.queue)
    requires ViewOf(e) != [] ==> !s.dropped && s.pending == []
    ensures Kept(SettleWith(t, e))
  {
    hide WellShaped, Unsatisfied, Fits, Matches, Flatten, Delivered, ViewOf, Ids;
    var u := SettleWith(t, e);
    assert SettlesInOrder(u.core) by { SettleNow(s.core, e); }
    assert AllFit(u.core.log, u.asks) by { FitPush(s.core.log, e, t.asks); }
    DeliveredPush(s.core.log, e);
    if !s.dropped {
      assert FrontData(s.pending) + Flatten(s.queue) == ViewOf(e) + (FrontData(s.pending) + Flatten(t.queue));
      RegroupAfter(Delivered(s.core.log), FrontData(s.pending), Flatten(s.queue),
              ViewOf(e), FrontData(s.pending), Flatten(t.queue));
    }
  }

  lemma WaitDefault(s: Stream)
    requires Sound(s) && s.core.kind == DefaultReader && s.core.st == Readable && s.queue == []
    requires SettlesInOrder(Issue(s.core).(requests := s.core.requests + [s.core.issued]))
    ensures ReadDefault(s).s.core == Issue(s.core).(requests := s.core.requests + [s.core.issued])
    ensures Kept(ReadDefault(s).s)
  {
    EmptyIsZero(s);
    AutoIsPending(s.auto);
    SoundIsKept(s);
    hide Sound, AllFit, Conserved, LockStep, Flatten, Delivered, Evaluate, ShouldCallPull, AutoDescriptor,
      SettlesInOrder;
    var t := ReadDefault(s).s;
    assert t.core == Issue(s.core).(requests := s.core.requests + [s.core.issued]);
    assert t.pending == if s.auto == 0 then s.pending else s.pending + [AutoDescriptor(s.auto)];
    assert LockStep(t) by { AutoKeepsStep(s, t); }
    assert AllFit(t.core.log, t.asks) by { MoreAsksFit(s.core, s.asks, DefaultAsk); }
    assert Conserved(t) by { AutoConserves(s, t); }
  }

  lemma EmptyIsZero(s: Stream)
    requires Sound(s) && s.queue == []
    ensures s.size == 0 && |s.asks| == s.core.issued
    ensures forall i :: 0 <= i < |s.core.requests| ==> s.core.requests[i] < s.core.issued
  {
    hide SettlesInOrder, AllFit, LockStep, Conserved, AllPending, FollowsProtocol;
    FlattenOfNone<byte>();
    WaitingIdsInBounds(s.core);
  }

  lemma AutoKeepsStep(s: Stream, t: Stream)
    requires LockStep(s) && s.core.kind == DefaultReader && s.core.st == Readable && |s.asks| == s.core.issued
    requires t.core == Issue(s.core).(requests := s.core.requests + [s.core.issued])
    requires t.asks == s.asks + [DefaultAsk] && t.auto == s.auto
    requires t.pending == if s.auto == 0 then s.pending else s.pending + [AutoDescriptor(s.auto)]
    ensures LockStep(t)
  {
    AutoIsPending(s.auto);
    hide AutoDescriptor, Matches;
    if s.auto > 0 {
      assert Attached(t.pending) == Attached(s.pending) + [AutoDescriptor(s.auto)];
    }
  }

  lemma AutoConserves(s: Stream, t: Stream)
    requires Conserved(s) && t.core.log == s.core.log && t.queue == s.queue
    requires t.produced == s.produced && t.dropped == s.dropped
    requires t.pending == if s.auto == 0 then s.pending else s.pending + [AutoDescriptor(s.auto)]
    ensures Conserved(t)
  {
    AutoIsPending(s.auto);
    hide AutoDescriptor, Flatten, Delivered;
    assert FrontData(t.pending) == FrontData(s.pending);
  }

  lemma AutoIsPending(size: nat)
    ensures var d := AutoDescriptor(size);
            && d.data == [] && d.min == 1 && d.kind == DefaultReader
            && (size > 0 ==> WellShaped(d) && Unsatisfied(d))
  {
  }

  lemma AddPendingKeeps(s: Stream, t: Stream, d: Descriptor, ask: Ask, id: nat)
    requires Sound(s) && s.core.kind == ByobReader && id == s.core.issued
    requires WellShaped(d) && Unsatisfied(d) && Matches(d, ask)
    requires t == s.(core := Issue(s.core), asks := s.asks + [ask], queue := [], size := t.size)
    requires s.pending == [] ==> !s.dropped && s.core.st == Readable && d.data == Flatten(s.queue)
    requires s.pending != [] ==> s.core.st != Errored && d.data == []
    ensures Kept(AddPending(t, d, id))
  {
    var u := AddPending(t, d, id);
    assert |s.asks| == s.core.issued && SettlesOnce(s.core);
    assert s.dropped ==> s.pending == [];
    hide Base, WellShaped, Unsatisfied, Fits, Matches, Flatten, Delivered, SettlesInOrder, SettlesOnce, LockStep,
      Conserved, AllFit;
    WaitingInOrder(s.core);
    assert Conserved(u) by { AddingConserves(s, u, d); }
    assert LockStep(u) by { AddingKeepsStep(s, u, d, ask); }
    assert AllFit(u.core.log, u.asks) by { MoreAsksFit(s.core, s.asks, ask); }
    assert FrontOnly(u.pending) && AllPending(u.pending);
    assert AlignedWhenClosed(u) by { assert s.pending != [] ==> u.pending[0] == s.pending[0]; }
  }

  lemma WaitingInOrder(c: Core<seq<byte>>)
    requires SettlesInOrder(c)
    ensures SettlesInOrder(Issue(c)) && SettlesInOrder(Issue(c).(requests := c.requests + [c.issued]))
  {
    InOrderIsOnce(c);
    Wait(c);
    assert Trail(Issue(c)) == Trail(c);
  }

  lemma MoreAsksFit(c: Core<seq<byte>>, asks: seq<Ask>, ask: Ask)
    requires AllFit(c.log, asks)
    ensures AllFit(c.log, asks + [ask])
  {
    hide Fits;
  }

  lemma AddingConserves(s: Stream, u: Stream, d: Descriptor)
    requires Conserved(s) && FrontOnly(s.pending) && (s.pending != [] ==> s.queue == [])
    requires s.pending == [] ==> !s.dropped && d.data == Flatten(s.queue)
    requires s.pending != [] ==> d.data == []
    requires u.pending == s.pending + [d] && u.queue == [] && u.core.log == s.core.log
    requires u.produced == s.produced && u.dropped == s.dropped
    ensures Conserved(u)
  {
    hide Flatten, Delivered;
    FlattenOfNone<byte>();
    if s.pending == [] {
      assert Delivered(s.core.log) + [] + d.data == Delivered(s.core.log) + d.data + [];
    } else {
      assert FrontData(u.pending) == FrontData(s.pending);
    }
  }

  lemma AddingKeepsStep(s: Stream, u: Stream, d: Descriptor, ask: Ask)
    requires LockStep(s) && s.core.kind == ByobReader && Matches(d, ask)
    requires u.pending == s.pending + [d] && u.asks == s.asks + [ask] && |s.asks| == s.core.issued
    requires u.core == Issue(s.core).(requests := if s.core.st == Readable then s.core.requests + [s.core.issued]
                                                  else s.core.requests)
    ensures LockStep(u)
  {
    assert d.kind == ByobReader;
    hide Matches;
    assert Attached(u.pending) == Attached(s.pending) + [d];
  }

  lemma ReadByobKeeps(s: Stream, memory: seq<byte>, offset: nat, element: Positive, len: nat, min: nat)
    requires Sound(s) && |memory| == len * element
    requires Regular(s, ByobRead(memory, offset, element, len, min))
    ensures var r := ReadByob(s, memory, offset, element, len, min); r.Returns? && Kept(r.s)
  {
    hide Flatten, Delivered, FollowsProtocol, SettlesInOrder, AllFit, Evaluate;
    if s.core.kind == ByobReader && len > 0 && min > 0 && min <= len {
      FreshDescriptor(memory, offset, element, len, min);
      var id := s.core.issued;
      var ask := ByobAsk(element, min * element, |memory|);
      var d := Descriptor([], memory, offset, min * element, element, ByobReader);
      var t := s.(core := Issue(s.core), asks := s.asks + [ask]);
      WaitingIdsInBounds(s.core);
      EmptyQueueHoldsNothing(s.queue);
      if s.core.st == Errored {
        SettleKeeps(s, t, ask, Failed(id, StoredError(s.core)));
      } else if s.pending != [] {
        AddPendingKeeps(s, t, d, ask, id);
      } else if s.core.st == Closed {
        assert 0 % element == 0;
        SettleKeeps(s, t, ask, Ended(id, Some([])));
      } else if s.size > 0 {
        ReadFromQueueKeeps(s, t, d, ask, id);
      } else {
        AddPendingKeeps(s, t, d, ask, id);
      }
    }
  }

  /** A fill that leaves the read unready has taken the whole queue. */
  lemma UnreadyTakesAll(queue: seq<seq<byte>>, d: Descriptor)
    requires WellShaped(d) && Unsatisfied(d) && d.data == [] && NoEmptyChunk(queue)
    requires d.min == d.Length() ==> |Flatten(queue)| <= d.Length()
    requires !Ready(|Flatten(queue)|, d)
    ensures 0 <= CopyCount(|Flatten(queue)|, d)
    ensures QueueAfter(queue, d) == [] && FilledFrom(queue, d).data == Flatten(queue)
  {
    FillFacts(queue, d);
    FillMovesPrefix(queue, d);
    hide Flatten, NoEmptyChunk, WellShaped, Unsatisfied, Ready;
    FlattenOfNone<byte>();
  }

  lemma FillKeepsMatch(queue: seq<seq<byte>>, d: Descriptor, ask: Ask)
    requires Matches(d, ask) && 0 <= CopyCount(|Flatten(queue)|, d)
    ensures Matches(FilledFrom(queue, d), ask)
  {
    hide Flatten, CopyCount;
  }

  /** What a sound, readable stream with nothing pending offers to a read. */
  lemma ReadableFacts(s: Stream)
    requires Sound(s) && s.core.st == Readable && s.pending == []
    ensures !s.dropped && !s.closeRequested && NoEmptyChunk(s.queue) && s.size == |Flatten(s.queue)|
    ensures s.core.kind == ByobReader ==> s.core.requests == []
  {
    hide Flatten, NoEmptyChunk, Delivered, FollowsProtocol, SettlesInOrder, SettlesOnce, AllFit;
  }

  lemma ReadyRead(s: Stream, d: Descriptor, ask: Ask, id: nat)
    requires WellShaped(d) && Unsatisfied(d) && d.data == [] && Matches(d, ask) && NoEmptyChunk(s.queue)
    requires Ready(|Flatten(s.queue)|, d)
    ensures 0 <= CopyCount(|Flatten(s.queue)|, d)
    ensures var e := Served(id, FilledFrom(s.queue, d).View());
            Fits(e, ask) && ViewOf(e) + Flatten(QueueAfter(s.queue, d)) == Flatten(s.queue)
  {
    FillFacts(s.queue, d);
    FillKeepsMatch(s.queue, d, ask);
    hide Ready, CopyCount, Flatten, NoEmptyChunk, WellShaped, Unsatisfied, FilledFrom, QueueAfter;
    CommitFits(FilledFrom(s.queue, d), id, ask);
    assert [] + Flatten(s.queue) == Flatten(s.queue);
  }

  lemma ReadFromQueueKeeps(s: Stream, t: Stream, d: Descriptor, ask: Ask, id: nat)
    requires Sound(s) && s.core.kind == ByobReader && s.core.st == Readable && s.pending == [] && s.size > 0
    requires t == s.(core := Issue(s.core), asks := s.asks + [ask]) && id == s.core.issued
    requires WellShaped(d) && Unsatisfied(d) && d.data == [] && Matches(d, ask)
    requires d.min == d.Length() ==> s.size <= d.Length()
    ensures ReadFromQueue(t, d, id).Returns? && Kept(ReadFromQueue(t, d, id).s)
  {
    hide Base, Sound, Kept, WellShaped, Unsatisfied, Flatten, NoEmptyChunk, Ready, CopyCount, FilledFrom, QueueAfter,
      AddPending, Matches, Evaluate, ShouldCallPull, Fits, ViewOf;
    ReadableFacts(s);
    FillFacts(s.queue, d);
    FillKeepsMatch(s.queue, d, ask);
    var n := CopyCount(|Flatten(s.queue)|, d);
    var filled := FilledFrom(s.queue, d);
    var u := t.(queue := QueueAfter(t.queue, d), size := t.size - n);
    if Ready(|Flatten(s.queue)|, d) {
      ReadyRead(s, d, ask, id);
      SettleKeeps(s, u, ask, Served(id, filled.View()));
      SettlingIgnoresPull(u, Served(id, filled.View()));
    } else {
      UnreadyTakesAll(s.queue, d);
      AddPendingKeeps(s, u, filled, ask, id);
      KeptIgnoresPull(AddPending(u, filled, id));
    }
  }

  lemma SettlingIgnoresPull(s: Stream, e: Event<seq<byte>>)
    requires Kept(SettleWith(s, e))
    ensures Kept(SettleWith(PullIfNeeded(s), e))
  {
    hide Evaluate;
  }

  // ---- Enqueueing -------------------------------------------------------------------------------

  lemma ProcessKeeps(s: Stream)
    requires Base(s) && Kept(s) && s.core.st == Readable && s.core.kind == ByobReader && !Detached(s.pending)
    ensures !ProcessDescriptors(s).Panic?
    ensures ProcessDescriptors(s).Returns? ==> Kept(ProcessDescriptors(s).s)
  {
    ProcessFromQueueKeeps(s, s.queue, s.size);
  }

  /** As ProcessKeeps, for a state whose queue has just been given the bytes that make up `queue`. */
  lemma ProcessFromQueueKeeps(s: Stream, queue: seq<seq<byte>>, size: int)
    requires SettlesInOrder(s.core) && SettlesOnce(s.core)
    requires AllPending(s.pending) && FrontOnly(s.pending) && LockStep(s)
    requires AllFit(s.core.log, s.asks) && !s.dropped && |s.asks| == s.core.issued
    requires s.core.st == Readable && s.core.kind == ByobReader && !Detached(s.pending)
    requires NoEmptyChunk(queue)
    requires s.produced == Delivered(s.core.log) + FrontData(s.pending) + Flatten(queue)
    ensures var t := s.(queue := queue, size := size);
            !ProcessDescriptors(t).Panic? && (ProcessDescriptors(t).Returns? ==> Kept(ProcessDescriptors(t).s))
  {
    ProcessKeepsPace(queue, s.pending, s.core.requests, s.asks);
    var r := Process(queue, s.pending, s.core.requests, Readable);
    if r.Done? {
      ProcessSettlesInOrder(queue, s.pending, s.core.requests, Readable);
      ProcessConserves(queue, s.pending, s.core.requests, Readable);
      AfterProcessing(s, queue, r, ProcessDescriptors(s.(queue := queue, size := size)).s);
    }
  }

  lemma AfterProcessing(s: Stream, queue: seq<seq<byte>>, r: Progress, u: Stream)
    requires SettlesInOrder(s.core) && LockStep(s) && AllFit(s.core.log, s.asks) && !s.dropped
    requires s.core.st == Readable && s.core.kind == ByobReader && !Detached(s.pending)
    requires s.produced == Delivered(s.core.log) + FrontData(s.pending) + Flatten(queue)
    requires r.Done? && KeepsPace(s.pending, s.core.requests, s.asks, r)
    requires FrontData(s.pending) + Flatten(queue) == Delivered(r.events) + (FrontData(r.pending) + Flatten(r.queue))
    requires Ids(r.events) + r.requests == s.core.requests
    requires u == s.(queue := r.queue, size := u.size, pending := r.pending,
                     core := s.core.(requests := r.requests, log := s.core.log + r.events))
    ensures Kept(u)
  {
    hide WellShaped, Unsatisfied, Fits, Flatten, Delivered, Ids;
    assert Trail(u.core) == Trail(s.core) by { IdsConcat(s.core.log, r.events); }
    assert AllFit(u.core.log, u.asks) by { FitConcat(s.core.log, r.events, s.asks); }
    assert Conserved(u) by {
      DeliveredConcat(s.core.log, r.events);
      RegroupAfter(Delivered(s.core.log), FrontData(s.pending), Flatten(queue),
              Delivered(r.events), FrontData(r.pending), Flatten(r.queue));
    }
    assert LockStep(u) by { PairedAfter(s.pending, s.core.requests, s.asks, u.pending, |r.events|); }
  }

  lemma FitConcat(log: seq<Event<seq<byte>>>, events: seq<Event<seq<byte>>>, asks: seq<Ask>)
    requires AllFit(log, asks) && AllFit(events, asks)
    ensures AllFit(log + events, asks)
  {
  }

  /** The reads that still wait after `k` have been served are paired as before. */
  lemma PairedAfter(pending: seq<Descriptor>, requests: seq<nat>, asks: seq<Ask>, left: seq<Descriptor>, k: nat)
    requires |pending| == |requests| && Paired(pending, requests, asks) && Remaining(left, pending, k)
    ensures Paired(left, requests[k..], asks) && |left| == |requests[k..]|
    ensures Attached(left) == left && forall i :: 0 <= i < |left| ==> left[i].kind == ByobReader
  {
    forall i | 0 <= i < |left| ensures Matches(left[i], asks[requests[i + k]]) {
      assert Matches(pending[i + k], asks[requests[i + k]]) && SameRead(left[i], pending[i + k]);
    }
  }

  lemma EnqueueKeeps(s: Stream, chunk: seq<byte>)
    requires Sound(s) && Regular(s, EnqueueChunk(chunk))
    ensures !Enqueue(s, chunk).Panic?
    ensures Enqueue(s, chunk).Returns? ==> Kept(Enqueue(s, chunk).s)
  {
    hide WellShaped, Unsatisfied, Fits, Matches, Flatten, Delivered, Process, Ids, Trail, PullIfNeeded;
    if chunk != [] && CanCloseOrEnqueue(s) {
      var t := ShiftDetached(s.(produced := s.produced + chunk));
      ShiftedFacts(s, chunk, t);
      match s.core.kind {
        case ByobReader =>
          FlattenPush(s.queue, chunk);
          ProcessFromQueueKeeps(t, t.queue + [chunk], t.size + |chunk|);
          if ProcessDescriptors(PushChunk(t, chunk)).Returns? {
            KeptIgnoresPull(ProcessDescriptors(PushChunk(t, chunk)).s);
          }
        case NoReader =>
          PushKeeps(s, t, chunk);
          KeptIgnoresPull(PushChunk(t, chunk));
        case DefaultReader =>
          if s.core.requests != [] {
            ServeKeeps(s, t, chunk);
          } else {
            PushKeeps(s, t, chunk);
          }
          KeptIgnoresPull(Serve(t, chunk).s);
      }
    }
  }

  lemma ShiftedFacts(s: Stream, chunk: seq<byte>, t: Stream)
    requires Sound(s) && Regular(s, EnqueueChunk(chunk)) && CanCloseOrEnqueue(s)
    requires t == ShiftDetached(s.(produced := s.produced + chunk))
    ensures t == s.(pending := Attached(s.pending), slot := t.slot, produced := s.produced + chunk)
    ensures FrontData(t.pending) == FrontData(s.pending) && Attached(t.pending) == t.pending
    ensures AllPending(t.pending) && FrontOnly(t.pending) && LockStep(t)
    ensures t.produced == Delivered(t.core.log) + FrontData(t.pending) + (Flatten(t.queue) + chunk)
    ensures s.core.kind == DefaultReader && s.core.requests != [] ==> FrontData(s.pending) == []
  {
    hide WellShaped, Unsatisfied, Fits, Matches, Flatten, Delivered, Ids, Trail;
    assert s.produced + chunk
        == Delivered(s.core.log) + FrontData(s.pending) + (Flatten(s.queue) + chunk);
  }

  lemma PushKeeps(s: Stream, t: Stream, chunk: seq<byte>)
    requires Sound(s) && s.core.kind != ByobReader && s.core.requests == [] && CanCloseOrEnqueue(s)
    requires t == s.(pending := Attached(s.pending), slot := t.slot, produced := s.produced + chunk)
    requires AllPending(t.pending) && FrontOnly(t.pending) && LockStep(t)
    requires t.produced == Delivered(t.core.log) + FrontData(t.pending) + (Flatten(t.queue) + chunk)
    ensures Kept(PushChunk(t, chunk))
  {
    hide WellShaped, Unsatisfied, Fits, Matches, Flatten, Delivered, Ids, Trail;
    FlattenPush(s.queue, chunk);
  }

  /** The chunk for the oldest waiting read takes an auto-allocated descriptor with it. */
  lemma ServingKeepsStep(s: Stream, u: Stream)
    requires LockStep(s) && s.core.kind == DefaultReader && s.core.st == Readable && s.core.requests != []
    requires var attached := Attached(s.pending);
             u.pending == if attached == [] then [] else attached[1..]
    requires u.asks == s.asks && u.auto == s.auto && u.core.kind == s.core.kind && u.core.st == s.core.st
    requires u.core.requests == s.core.requests[1..]
    ensures LockStep(u) && FrontData(u.pending) == []
  {
    hide Matches;
    assert Attached(u.pending) == u.pending;
  }

  lemma ServesAtOnce(t: Stream, chunk: seq<byte>)
    requires t.core.requests != [] && t.size == 0
    ensures Serve(t, chunk) == Returns(AfterServing(t, chunk), true)
  {
  }

  function AfterServing(t: Stream, chunk: seq<byte>): Stream
    requires t.core.requests != []
  {
    SettleWith(t.(core := t.core.(requests := t.core.requests[1..]),
                  pending := if t.pending == [] then [] else t.pending[1..]), Served(t.core.requests[0], chunk))
  }

  lemma ServingConserves(s: Stream, u: Stream, e: Event<seq<byte>>)
    requires s.produced == Delivered(s.core.log) + [] + [] && !u.dropped
    requires u.core.log == s.core.log + [e] && u.produced == s.produced + ViewOf(e)
    requires FrontData(u.pending) == [] && u.queue == []
    ensures Conserved(u)
  {
    hide Delivered, ViewOf, FrontData;
    FlattenOfNone<byte>();
    DeliveredPush(s.core.log, e);
    assert Delivered(s.core.log) + [] + [] + ViewOf(e) == Delivered(s.core.log) + ViewOf(e) + [] + [];
  }

  lemma ServeKeeps(s: Stream, t: Stream, chunk: seq<byte>)
    requires Sound(s) && s.core.kind == DefaultReader && s.core.requests != [] && chunk != []
    requires CanCloseOrEnqueue(s)
    requires t == s.(pending := Attached(s.pending), slot := t.slot, produced := s.produced + chunk)
    requires FrontData(t.pending) == FrontData(s.pending) == []
    ensures Serve(t, chunk).Returns? && Kept(Serve(t, chunk).s)
  {
    hide Sound, Flatten, Delivered, Increasing, Trail, LockStep, AllFit, AllPending, FrontOnly, FrontData, Conserved,
      Attached, Serve;
    ServableFacts(s);
    ServesAtOnce(t, chunk);
    var e, u := Served(s.core.requests[0], chunk), AfterServing(t, chunk);
    ServingKeepsStep(s, u);
    ServingConserves(s, u, e);
    SettleHeadKeepsTrail(s.core, e);
    FitPush(s.core.log, e, s.asks);
    AttachedStays(s.pending);
  }

  lemma ServableFacts(s: Stream)
    requires Sound(s) && CanCloseOrEnqueue(s) && s.core.requests != [] && s.core.kind == DefaultReader
    ensures s.queue == [] && s.size == 0 && Flatten(s.queue) == [] && !s.dropped && SettlesInOrder(s.core)
    ensures s.core.requests[0] < |s.asks| && s.asks[s.core.requests[0]] == DefaultAsk
    ensures s.produced == Delivered(s.core.log) + FrontData(s.pending) + []
    ensures LockStep(s) && AllFit(s.core.log, s.asks) && AllPending(s.pending) && FrontOnly(s.pending)
  {
    hide SettlesOnce, FollowsProtocol, Delivered, AllPending, AllFit, SettlesInOrder, FrontOnly;
    FlattenOfNone<byte>();
  }

  lemma AttachedStays(pending: seq<Descriptor>)
    requires AllPending(pending) && FrontOnly(pending)
    ensures var attached := Attached(pending);
            var left := if attached == [] then [] else attached[1..];
            AllPending(left) && FrontOnly(left)
  {
    hide WellShaped, Unsatisfied;
  }
}
