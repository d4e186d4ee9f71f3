/** How much a read is given: the largest whole number of its elements that its view and the bytes at hand allow. */
module ByteAmounts {
  import opened Chunks
  import opened StreamCore
  import opened PullProtocol
  import opened PullInto
  import opened ByteStream
  import opened ByteLifecycle
  import opened ByteDelivery
  import opened ByteExact
  import opened ByteRanks
  import opened ByteOutcomes

  /** `n` is the largest whole number of the read's elements within its view and the `total` bytes at hand. */
  ghost predicate Largest(n: nat, d: Descriptor, total: nat) {
    && n % d.element == 0 && n <= d.Length() && n <= total
    && forall m: nat :: m % d.element == 0 && m <= d.Length() && m <= total ==> m <= n
  }

  /** Some whole number of elements above the read's minimum is within its view and the bytes at hand. */
  ghost predicate Satisfiable(d: Descriptor, total: nat) {
    exists m: nat :: d.min < m && m % d.element == 0 && m <= d.Length() && m <= total
  }

  /** What one fill amounts to: `total` counts the bytes in the descriptor and those queued. */
  lemma FillTakesAll(queue: seq<seq<byte>>, d: Descriptor, total: nat)
    requires WellShaped(d) && Unsatisfied(d) && NoEmptyChunk(queue) && total == d.Filled() + |Flatten(queue)|
    ensures Ready(|Flatten(queue)|, d) <==> Satisfiable(d, total)
    ensures 0 <= CopyCount(|Flatten(queue)|, d)
    ensures Ready(|Flatten(queue)|, d) ==> Largest(FilledFrom(queue, d).Filled(), d, total)
    ensures !Ready(|Flatten(queue)|, d) ==>
              FilledFrom(queue, d).Filled() == if total <= d.Length() then total else d.Length()
  {
    hide Flatten, NoEmptyChunk, Ready, CopyCount, FilledFrom, WellShaped, Unsatisfied;
    FillIsMaximal(queue, d);
    var queued := |Flatten(queue)|;
    if Satisfiable(d, total) {
      var m: nat :| d.min < m && m % d.element == 0 && m <= d.Length() && m <= total;
      assert Reachable(m, queued, d);
    }
    if Ready(queued, d) {
      var n: nat :| d.min < n && Reachable(n, queued, d);
      forall m: nat | m % d.element == 0 && m <= d.Length() && m <= total
        ensures m <= FilledFrom(queue, d).Filled()
      {
        assert Reachable(m, queued, d);
      }
    }
  }

  // ---- The processing loop -----------------------------------------------------------------------

  /**
   What the loop has done with `total` bytes, those in the front descriptor included: each read it
   settles gets the most it can of what the reads before it have left, and it settles as many as it can.
   */
  ghost predicate TakesAll(pending: seq<Descriptor>, total: nat, events: seq<Event<seq<byte>>>) {
    && |events| <= |pending| && |Delivered(events)| <= total
    && (forall i :: 0 <= i < |events| ==>
          |Delivered(events[..i])| <= total
          && Largest(|ViewOf(events[i])|, pending[i], total - |Delivered(events[..i])|)
          && pending[i].min < |ViewOf(events[i])|)
    && (|events| < |pending| ==> !Satisfiable(pending[|events|], total - |Delivered(events)|))
  }

  lemma {:induction false} LoopTakesAll(
      queue: seq<seq<byte>>, pending: seq<Descriptor>, requests: seq<nat>, st: State)
    requires AllPending(pending) && FrontOnly(pending) && NoEmptyChunk(queue)
    requires Process(queue, pending, requests, st).Done?
    ensures TakesAll(pending, |FrontData(pending)| + |Flatten(queue)|, Process(queue, pending, requests, st).events)
    decreases |pending|
  {
    hide Flatten, NoEmptyChunk, Ready, CopyCount, FilledFrom, QueueAfter, ViewOf, CommitEvent, WellShaped,
      Unsatisfied, Largest, Satisfiable, FrontOnly;
    var total := |FrontData(pending)| + |Flatten(queue)|;
    if pending == [] {
      NothingSettled(pending, total);
    } else {
      var d := pending[0];
      FillTakesAll(queue, d, total);
      FillMovesPrefix(queue, d);
      if |Flatten(queue)| > 0 && Ready(|Flatten(queue)|, d) {
        FrontTail(pending);
        ReadyCommitsAll(queue, d, requests[0], st);
        var e, left := CommitEvent(FilledFrom(queue, d), requests[0], st), QueueAfter(queue, d);
        LoopTakesAll(left, pending[1..], requests[1..], st);
        AboveMinimum(FilledFrom(queue, d).Filled(), d, total);
        OneMoreTaken(pending, total, e, Process(left, pending[1..], requests[1..], st).events);
      } else {
        if |Flatten(queue)| == 0 { HeldIsNotEnough(d); }
        NothingSettled(pending, total);
      }
    }
  }

  lemma NothingSettled(pending: seq<Descriptor>, total: nat)
    requires pending != [] ==> !Satisfiable(pending[0], total)
    ensures TakesAll(pending, total, [])
  {
  }

  /** Without further bytes an unsatisfied read cannot be settled. */
  lemma HeldIsNotEnough(d: Descriptor)
    requires WellShaped(d) && Unsatisfied(d)
    ensures !Satisfiable(d, d.Filled())
  {
    if Satisfiable(d, d.Filled()) {
      var m: nat :| d.min < m && m % d.element == 0 && m <= d.Length() && m <= d.Filled();
      MultipleGap(m, d.min, d.element);
    }
  }

  lemma AboveMinimum(n: nat, d: Descriptor, total: nat)
    requires Largest(n, d, total) && Satisfiable(d, total)
    ensures d.min < n <= total
  {
  }

  lemma OneMoreTaken(pending: seq<Descriptor>, total: nat, e: Event<seq<byte>>, events: seq<Event<seq<byte>>>)
    requires pending != [] && |ViewOf(e)| <= total && pending[0].min < |ViewOf(e)|
    requires Largest(|ViewOf(e)|, pending[0], total) && TakesAll(pending[1..], total - |ViewOf(e)|, events)
    ensures TakesAll(pending, total, [e] + events)
  {
    hide Largest, Satisfiable, ViewOf;
    var all := [e] + events;
    DeliveredCons(e, events);
    forall i | 0 <= i < |all|
      ensures |Delivered(all[..i])| <= total
              && Largest(|ViewOf(all[i])|, pending[i], total - |Delivered(all[..i])|)
              && pending[i].min < |ViewOf(all[i])|
    {
      if i == 0 {
        assert all[..0] == [];
      } else {
        assert all[..i] == [e] + events[..i - 1];
        DeliveredCons(e, events[..i - 1]);
        assert pending[i] == pending[1..][i - 1] && all[i] == events[i - 1];
      }
    }
  }

  // ---- A read from the queue ---------------------------------------------------------------------

  lemma SplitQueue(queue: seq<seq<byte>>, d: Descriptor)
    requires 0 <= CopyCount(|Flatten(queue)|, d) && NoEmptyChunk(queue) && d.data == []
    ensures FilledFrom(queue, d).data + Flatten(QueueAfter(queue, d)) == Flatten(queue)
    ensures |FilledFrom(queue, d).data| == CopyCount(|Flatten(queue)|, d)
  {
    hide Flatten, NoEmptyChunk, CopyCount, Ready;
    FillMovesPrefix(queue, d);
    assert [] + Flatten(queue) == Flatten(queue);
  }

  /**
   A BYOB read made while bytes are queued, none waiting before it. If some whole number of elements
   above its minimum is within its view and the queue, it is answered at once with the largest such
   number of bytes, taken from the front; otherwise it waits with all that its view can take.
   */
  lemma ByobReadTakesAll(s: Stream, memory: seq<byte>, offset: nat, element: Positive, len: nat, min: nat)
    requires Base(s) && |memory| == len * element && 0 < min <= len
    requires s.core.st == Readable && s.core.kind == ByobReader && s.pending == [] && s.queue != []
    ensures var id, d := s.core.issued, Descriptor([], memory, offset, min * element, element, ByobReader);
            var r := ReadByob(s, memory, offset, element, len, min);
            && r.Returns? && r.ok
            && if Satisfiable(d, |Flatten(s.queue)|) then
                 && |r.s.core.log| == |s.core.log| + 1 && r.s.core.log[..|s.core.log|] == s.core.log
                 && var e := r.s.core.log[|s.core.log|];
                    && e.Served? && e.id == id && e.view + Flatten(r.s.queue) == Flatten(s.queue)
                    && Largest(|e.view|, d, |Flatten(s.queue)|)
                    && r.s.pending == [] && r.s.core.requests == s.core.requests
               else
                 && r.s.core.log == s.core.log && r.s.core.requests == s.core.requests + [id]
                 && |r.s.pending| == 1 && r.s.pending[0].data + Flatten(r.s.queue) == Flatten(s.queue)
                 && (r.s.queue != [] ==> |r.s.pending[0].data| == |memory|)
  {
    FreshDescriptor(memory, offset, element, len, min);
    EmptyQueueHoldsNothing(s.queue);
    assert NoEmptyChunk(s.queue) && s.size == |Flatten(s.queue)| && !s.closeRequested;
    hide Base, Flatten, NoEmptyChunk, Ready, CopyCount, FilledFrom, QueueAfter, WellShaped, Unsatisfied, Largest,
      Satisfiable, Evaluate;
    var d := Descriptor([], memory, offset, min * element, element, ByobReader);
    FillTakesAll(s.queue, d, |Flatten(s.queue)|);
    FillFacts(s.queue, d);
    SplitQueue(s.queue, d);
  }

  lemma ChunkQueued(s: Stream, chunk: seq<byte>)
    requires Sound(s) && CanCloseOrEnqueue(s) && chunk != []
    ensures var u := PushChunk(ShiftDetached(s.(produced := s.produced + chunk)), chunk);
            && u.pending == Attached(s.pending) && u.core == s.core
            && AllPending(u.pending) && FrontOnly(u.pending) && NoEmptyChunk(u.queue)
            && |Flatten(u.queue)| == Queued(s) + Requeued(s) + |chunk|
  {
    SoundIsRanked(s);
    var t := ShiftDetached(s.(produced := s.produced + chunk));
    ShiftedState(s, chunk, t);
    ShiftedSize(s, chunk);
    PushChunkAccounts(t, chunk);
    FlattenPush(t.queue, chunk);
    LineIsPending(Attached(s.pending), s.core.kind);
    hide Sound, Ranked, ShiftDetached, Flatten, Requeued, AllPending, FrontOnly, NoEmptyChunk;
  }

  /** A chunk under a BYOB reader: with what was queued it settles as many of the waiting reads as it can. */
  lemma ChunkTakesAll(s: Stream, chunk: seq<byte>)
    requires Sound(s) && CanCloseOrEnqueue(s) && s.core.kind == ByobReader && chunk != []
    requires Enqueue(s, chunk).Returns?
    ensures var log, attached := Enqueue(s, chunk).s.core.log, Attached(s.pending);
            && s.core.log <= log
            && TakesAll(attached, |FrontData(attached)| + Queued(s) + Requeued(s) + |chunk|, log[|s.core.log|..])
  {
    ChunkQueued(s, chunk);
    hide Sound, ShiftDetached, Flatten, Process, TakesAll, Evaluate, Requeued, Queued, Attached, AllPending, FrontOnly,
      NoEmptyChunk, FrontData, ShouldCallPull;
    var u := PushChunk(ShiftDetached(s.(produced := s.produced + chunk)), chunk);
    LoopTakesAll(u.queue, u.pending, u.core.requests, u.core.st);
    var events := Process(u.queue, u.pending, u.core.requests, u.core.st).events;
    assert (s.core.log + events)[|s.core.log|..] == events;
  }

}
