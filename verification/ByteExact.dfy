/** Exactly when a step keeps the bytes: what a lost reader costs, told from the state before the call. */
module ByteExact {
  import opened Chunks
  import opened StreamCore
  import opened Wrappers
  import opened PullProtocol
  import opened PullInto
  import opened ByteStream
  import opened ByteLifecycle
  import opened ByteDelivery
  import opened ByteSteps
  import opened ByteAnswers

  /** All bytes the stream accounts for: delivered, filled into the front descriptor, or queued. */
  function Accounted(s: Stream): seq<byte> {
    Delivered(s.core.log) + FrontData(s.pending) + Flatten(s.queue)
  }

  lemma ProcessingAccounts(s: Stream)
    requires NoEmptyChunk(s.queue) && FrontOnly(s.pending) && ProcessDescriptors(s).Returns?
    ensures Accounted(ProcessDescriptors(s).s) == Accounted(s)
    ensures ProcessDescriptors(s).s.produced == s.produced && ProcessDescriptors(s).s.dropped == s.dropped
  {
    hide Flatten, Delivered;
    var r := Process(s.queue, s.pending, s.core.requests, s.core.st);
    ProcessConserves(s.queue, s.pending, s.core.requests, s.core.st);
    DeliveredConcat(s.core.log, r.events);
    RegroupAfter(Delivered(s.core.log), FrontData(s.pending), Flatten(s.queue),
                 Delivered(r.events), FrontData(r.pending), Flatten(r.queue));
  }

  lemma PushAccounts(s: Stream, chunk: seq<byte>)
    ensures Accounted(PushChunk(s, chunk)) == Accounted(s) + chunk
  {
    FlattenPush(s.queue, chunk);
    assert Delivered(s.core.log) + FrontData(s.pending) + (Flatten(s.queue) + chunk) == Accounted(s) + chunk;
  }

  ghost predicate NothingFilled(pending: seq<Descriptor>) {
    forall i :: 0 <= i < |pending| ==> pending[i].data == []
  }

  /** The i-th waiting default read gets the i-th chunk: none is lost and none overtakes another. */
  lemma {:induction false} ServingAccounts(s: Stream, chunk: seq<byte>)
    requires Accounts(s) && NothingFilled(s.pending) && Serve(s, chunk).Returns?
    ensures Accounted(Serve(s, chunk).s) == Accounted(s) + chunk
    ensures Serve(s, chunk).s.produced == s.produced && Serve(s, chunk).s.dropped == s.dropped
    decreases |s.core.requests|
  {
    hide Delivered;
    if s.core.requests == [] {
      PushAccounts(s, chunk);
    } else if s.size == 0 {
      EmptyQueueHoldsNothing(s.queue);
      DeliveredPush(s.core.log, Served(s.core.requests[0], chunk));
      assert Delivered(s.core.log) + chunk + [] + [] == Accounted(s) + chunk;
    } else {
      var e := Served(s.core.requests[0], s.queue[0]);
      DeliveredPush(s.core.log, e);
      var t := s.(core := s.core.(requests := s.core.requests[1..]),
                  queue := s.queue[1..], size := s.size - |s.queue[0]|);
      var u := SettleWith(PullIfNeeded(t), e);
      assert Accounted(u) == Accounted(s) by {
        assert FrontData(s.pending) == [];
        assert (Delivered(s.core.log) + s.queue[0]) + [] + Flatten(s.queue[1..])
            == Delivered(s.core.log) + [] + (s.queue[0] + Flatten(s.queue[1..]));
      }
      ServingAccounts(u, chunk);
    }
  }

  /** A detached read that was filled in part, and not to the end. */
  predicate PartDetached(s: Stream) {
    Detached(s.pending) && s.pending[0].data != [] && s.pending[0].rest != []
  }

  /**
   An accepted chunk keeps the bytes exact if and only if the front descriptor is not a detached,
   partly filled one: for such a descriptor its whole memory goes back on the queue.
   */
  lemma EnqueueConservesIff(s: Stream, chunk: seq<byte>)
    requires Sound(s) && chunk != [] && CanCloseOrEnqueue(s) && Enqueue(s, chunk).Returns?
    ensures Conserved(Enqueue(s, chunk).s) <==> !PartDetached(s)
  {
    hide Flatten, Delivered, Process, Serve;
    var t := ShiftDetached(s.(produced := s.produced + chunk));
    ShiftedState(s, chunk, t);
    match s.core.kind {
      case ByobReader => PushAccounts(t, chunk); PushChunkAccounts(t, chunk); ProcessingAccounts(PushChunk(t, chunk));
      case NoReader => PushAccounts(t, chunk);
      case DefaultReader => ServingAccounts(t, chunk);
    }
    var u := Enqueue(s, chunk).s;
    assert Accounted(u) == Accounted(t) + chunk;
    if PartDetached(s) {
      assert |u.produced| < |Accounted(u)|;
    }
  }

  lemma ShiftedState(s: Stream, chunk: seq<byte>, t: Stream)
    requires Sound(s) && CanCloseOrEnqueue(s) && t == ShiftDetached(s.(produced := s.produced + chunk))
    ensures t.core == s.core && t.produced == s.produced + chunk && !t.dropped && !s.dropped
    ensures FrontOnly(t.pending) && Accounts(t) && t.pending == Attached(s.pending)
    ensures s.core.kind == DefaultReader ==> NothingFilled(t.pending)
    ensures s.produced == Accounted(s)
    ensures !PartDetached(s) ==> Accounted(t) == Accounted(s)
    ensures PartDetached(s) ==> |Accounted(t)| > |Accounted(s)|
  {
    hide Flatten, Delivered;
    FlattenOfNone<byte>();
    if s.pending != [] {
      var d := s.pending[0];
      assert WellShaped(d);
      if Detached(s.pending) && d.data != [] {
        FlattenPush(s.queue, d.data + d.rest);
        assert Flatten(t.queue) == [] + (d.data + d.rest);
        assert FrontData(t.pending) == [];
        assert Accounted(t) == Delivered(s.core.log) + [] + (d.data + d.rest);
        assert Accounted(s) == Delivered(s.core.log) + d.data + [];
        if d.rest == [] {
          assert d.data + d.rest == d.data;
        }
      }
    }
  }

  predicate Accepted(s: Stream, bytes: seq<byte>) {
    s.slot == Live && s.pending != [] && bytes != [] && |bytes| <= |s.pending[0].rest|
  }

  /**
   Bytes written in answer to a request on a readable stream stay exact if and only if the front
   descriptor belongs to a BYOB read of the present reader. A detached descriptor is queued
   again as a whole; one made for a default reader is thrown away.
   */
  lemma AnswerConservesIff(s: Stream, bytes: seq<byte>)
    requires Sound(s) && s.core.st == Readable && Accepted(s, bytes)
    ensures Respond(s, bytes).Returns? ==> (Conserved(Respond(s, bytes).s) <==> s.pending[0].kind == ByobReader)
  {
    hide Flatten, Delivered, Process, FollowsProtocol, AllFit, SettlesInOrder, SettlesOnce;
    var d := s.pending[0];
    var t := Written(s, bytes);
    assert Respond(s, bytes) == RespondReadable(t) by {
      assert t == s.(slot := Vacant, pending := s.pending[0 := d.Absorb(bytes)], produced := s.produced + bytes);
    }
    if d.kind == ByobReader {
      AnswerKeeps(s, bytes);
    } else {
      assert s.queue == [] && !s.dropped;
      FlattenOfNone<byte>();
      var d' := t.pending[0];
      assert |t.produced| == |Delivered(s.core.log)| + |d'.data|;
      if !RespondReadable(t).Returns? {
      } else if d.kind == NoReader {
        DetachedAnswerOvercopies(t);
      } else {
        assert !Detached(s.pending) && Attached(s.pending) == s.pending;
        DefaultAnswerLoses(s, t);
      }
    }
  }

  lemma DetachedAnswerOvercopies(t: Stream)
    requires t.pending != [] && t.pending[0].kind == NoReader && t.pending[0].data != []
    requires FrontOnly(t.pending) && t.queue == [] && !t.dropped
    requires |t.produced| == |Delivered(t.core.log)| + |t.pending[0].data|
    requires RespondReadable(t).Returns?
    ensures !Conserved(RespondReadable(t).s)
  {
    hide Flatten, Delivered, Process;
    var d := t.pending[0];
    var pushed := PushChunk(t, d.data + d.rest);
    PushAccounts(t, d.data + d.rest);
    FlattenOfNone<byte>();
    if t.core.kind == ByobReader {
      ProcessingAccounts(pushed);
    }
    var u := RespondReadable(t).s;
    assert Accounted(u) == Accounted(t) + (d.data + d.rest);
    assert |Accounted(u)| > |u.produced|;
  }

  lemma DefaultAnswerLoses(s: Stream, t: Stream)
    requires Sound(s) && s.pending != [] && s.pending[0].kind == DefaultReader && s.core.kind == DefaultReader
    requires Attached(s.pending) == s.pending && s.queue == [] && !s.dropped
    requires t == s.(slot := t.slot, pending := t.pending, produced := t.produced)
    requires t.pending != [] && t.pending[1..] == s.pending[1..] && t.pending[0].data != []
    requires t.pending[0].kind == DefaultReader && t.pending[0].min == 1
    requires t.pending[0].element == s.pending[0].element
    requires |t.produced| == |Delivered(t.core.log)| + |t.pending[0].data|
    ensures RespondReadable(t).Returns? ==> !Conserved(RespondReadable(t).s)
  {
    hide Flatten, Delivered;
    var d := t.pending[0];
    FlattenOfNone<byte>();
    assert WellShaped(s.pending[0]);
    RoundDownAbove(|d.data|, 1, d.element);
    var tail := d.Filled() % d.element;
    assert tail < |d.data|;
    FlattenPush(t.queue, d.data[d.Filled() - tail..]);
    var u := RespondReadable(t).s;
    assert FrontData(u.pending) == [];
    assert |Accounted(u)| < |u.produced|;
  }

  /**
   The answer that completes a closed stream keeps the bytes exact if and only if a BYOB reader is
   there to receive what the front descriptor holds, or it holds nothing.
   */
  lemma ClosedAnswerConservesIff(s: Stream)
    requires Sound(s) && s.core.st == Closed && s.slot == Live && s.pending[0].rest != []
    ensures Respond(s, []).Returns?
    ensures Conserved(Respond(s, []).s) <==> s.core.kind == ByobReader || s.pending[0].data == []
  {
    if s.core.kind == ByobReader {
      ClosedDrainConserves(s);
    } else {
      ClosedPopConservesIff(s);
    }
  }

  lemma ClosedDrainConserves(s: Stream)
    requires Sound(s) && s.core.st == Closed && s.slot == Live && s.pending[0].rest != []
    requires s.core.kind == ByobReader
    ensures Respond(s, []).Returns? && Conserved(Respond(s, []).s)
  {
    hide Flatten, Delivered, FollowsProtocol, AllFit, SettlesInOrder, SettlesOnce, DrainEvents, AllPending, Shapes;
    assert |s.core.requests| <= |s.pending| && !s.dropped && s.queue == [];
    DrainedState(s);
    DrainDelivers(s.pending, s.core.requests);
    DrainedAccounts(s, Respond(s, []).s);
  }

  lemma DrainedState(s: Stream)
    requires s.core.st == Closed && s.slot == Live && s.core.kind == ByobReader
    requires s.pending != [] && s.pending[0].rest != [] && |s.core.requests| <= |s.pending|
    ensures Respond(s, []).Returns?
    ensures var u := Respond(s, []).s;
            && u.core.log == s.core.log + DrainEvents(s.pending, s.core.requests)
            && u.pending == s.pending[|s.core.requests|..]
            && u.queue == s.queue && u.produced == s.produced && u.dropped == s.dropped
  {
    hide DrainEvents, Evaluate;
  }

  lemma DrainedAccounts(s: Stream, u: Stream)
    requires |s.core.requests| <= |s.pending| && Conserved(s) && !s.dropped
    requires u.core.log == s.core.log + DrainEvents(s.pending, s.core.requests)
    requires u.pending == s.pending[|s.core.requests|..]
    requires u.queue == s.queue && u.produced == s.produced && u.dropped == s.dropped
    requires Delivered(DrainEvents(s.pending, s.core.requests)) + FrontData(u.pending) == FrontData(s.pending)
    ensures Conserved(u)
  {
    hide Flatten, Delivered, DrainEvents, FrontData;
    var events := DrainEvents(s.pending, s.core.requests);
    DeliveredConcat(s.core.log, events);
    assert Delivered(s.core.log) + (Delivered(events) + FrontData(u.pending)) + Flatten(s.queue)
        == (Delivered(s.core.log) + Delivered(events)) + FrontData(u.pending) + Flatten(s.queue);
  }

  lemma ClosedPopConservesIff(s: Stream)
    requires Sound(s) && s.core.st == Closed && s.slot == Live && s.pending[0].rest != []
    requires s.core.kind != ByobReader
    ensures Respond(s, []).Returns?
    ensures Conserved(Respond(s, []).s) <==> s.pending[0].data == []
  {
    hide Flatten, Delivered, FollowsProtocol, AllFit, SettlesInOrder, SettlesOnce, AllPending, Shapes, LockStep;
    var u := Respond(s, []).s;
    assert FrontData(u.pending) == [];
    assert |Accounted(s)| == |Accounted(u)| + |s.pending[0].data|;
    if s.pending[0].data == [] {
      assert Accounted(s) == Accounted(u);
    }
  }

  // ---- Reads that nothing will ever settle --------------------------------------------------------

  lemma SettledIsOnTrail(c: Core<seq<byte>>, e: Event<seq<byte>>)
    ensures e.id in Trail(Settle(c, e))
  {
    assert Ids(Settle(c, e).log)[|c.log|] == e.id;
  }

  lemma WaitingIsOnTrail(c: Core<seq<byte>>, id: nat)
    requires id in c.requests
    ensures id in Trail(c)
  {
  }

  lemma FreshIdIsOffTrail(c: Core<seq<byte>>)
    requires SettlesOnce(c)
    ensures c.issued !in Trail(c) && Trail(Issue(c)) == Trail(c)
  {
  }

  /**
   An accepted BYOB read is settled or waits, unless the stream is closed and descriptors are still
   pending: then its descriptor is added but its request is dropped, and nothing is left to settle the read.
   */
  lemma AcceptedReadIsTrackedIff(s: Stream, memory: seq<byte>, offset: nat, element: Positive, len: nat, min: nat)
    requires Base(s) && s.core.kind == ByobReader && 0 < min <= len && |memory| == len * element
    requires ReadByob(s, memory, offset, element, len, min).Returns?
    ensures s.core.issued in Trail(ReadByob(s, memory, offset, element, len, min).s.core)
            <==> !(s.core.st == Closed && s.pending != [])
  {
    assert SettlesOnce(s.core);
    hide Base, Evaluate, Flatten, Trail, FilledFrom, QueueAfter, Ready, CopyCount;
    var id := s.core.issued;
    var d := Descriptor([], memory, offset, min * element, element, ByobReader);
    var t := s.(core := Issue(s.core), asks := s.asks + [ByobAsk(element, min * element, |memory|)]);
    var r := ReadByob(s, memory, offset, element, len, min).s;
    if s.core.st == Errored {
      SettledIsOnTrail(t.core, Failed(id, StoredError(t.core)));
    } else if s.core.st == Closed {
      if s.pending == [] {
        SettledIsOnTrail(t.core, Ended(id, Some([])));
      } else {
        FreshIdIsOffTrail(s.core);
      }
    } else if id in r.core.requests {
      WaitingIsOnTrail(r.core, id);
    } else {
      ReadFromQueueSettles(t, d, id);
    }
  }

  lemma ReadFromQueueSettles(t: Stream, d: Descriptor, id: nat)
    requires t.core.st == Readable && ReadFromQueue(t, d, id).Returns? && ReadFromQueue(t, d, id).ok
    ensures id in Trail(ReadFromQueue(t, d, id).s.core)
  {
    hide Evaluate, Flatten, Trail, FilledFrom, QueueAfter, Ready, CopyCount;
    var r := ReadFromQueue(t, d, id).s;
    if id in r.core.requests {
      WaitingIsOnTrail(r.core, id);
    } else {
      var e := r.core.log[|r.core.log| - 1];
      assert r.core.log != [] && e.id == id;
      SettledIsOnTrail(r.core.(log := r.core.log[..|r.core.log| - 1]), e);
      assert r.core.log[..|r.core.log| - 1] + [e] == r.core.log;
    }
  }

  // ---- Reads whose minimum is their whole view -----------------------------------------------------

  /** More is queued than the read's view holds, and its minimum is the whole view. */
  predicate Overfull(s: Stream, memory: seq<byte>, len: nat, min: nat) {
    s.core.st == Readable && s.pending == [] && min == len && |memory| < s.size
  }

  /**
   A BYOB read never loses a byte. It leaves bytes queued behind a waiting read if and only if it is
   overfull, which is the condition that a regular read rules out.
   */
  lemma ReadStarvesIff(s: Stream, memory: seq<byte>, offset: nat, element: Positive, len: nat, min: nat)
    requires Sound(s) && s.core.kind == ByobReader && 0 < min <= len && |memory| == len * element
    ensures ReadByob(s, memory, offset, element, len, min).Returns?
    ensures var t := ReadByob(s, memory, offset, element, len, min).s;
            && Conserved(t)
            && (Starved(t) <==> !Overfull(s, memory, len, min))
            && (Regular(s, ByobRead(memory, offset, element, len, min)) <==> !Overfull(s, memory, len, min))
  {
    hide Sound, Starved, Conserved, ReadByob;
    if Overfull(s, memory, len, min) {
      FreshDescriptor(memory, offset, element, len, min);
      OverfullRead(s, memory, offset, element, len, min);
    } else {
      ReadByobKeeps(s, memory, offset, element, len, min);
    }
  }

  /** The state after an overfull read: its descriptor is full, and the rest stays queued behind it. */
  lemma OverfullRead(s: Stream, memory: seq<byte>, offset: nat, element: Positive, len: nat, min: nat)
    requires Sound(s) && s.core.kind == ByobReader && 0 < min <= len && |memory| == len * element
    requires Overfull(s, memory, len, min)
    ensures ReadByob(s, memory, offset, element, len, min).Returns?
    ensures var t := ReadByob(s, memory, offset, element, len, min).s;
            && Conserved(t) && !Starved(t)
            && t.core.st == Readable && t.core.kind == ByobReader && !t.closeRequested && Accounts(t)
            && |t.pending| == 1 && t.pending[0].kind == ByobReader
            && t.pending[0].rest == [] && t.pending[0].min == t.pending[0].Length()
            && WellShaped(t.pending[0]) && t.queue != []
  {
    hide AllFit, SettlesInOrder, SettlesOnce, FollowsProtocol, LockStep, Flatten, Delivered, Evaluate, WellShaped,
      Unsatisfied, NoEmptyChunk, Ready, CopyCount, QueueAfter;
    FreshDescriptor(memory, offset, element, len, min);
    var d := Descriptor([], memory, offset, min * element, element, ByobReader);
    WholeViewIsUnready(|Flatten(s.queue)|, d);
    FillFacts(s.queue, d);
    FillMovesPrefix(s.queue, d);
    DropFirstFlattens(s.queue, |memory|);
    var filled, left := FilledFrom(s.queue, d), QueueAfter(s.queue, d);
    assert Delivered(s.core.log) + [] + Flatten(s.queue) == Delivered(s.core.log) + Flatten(s.queue);
    assert Delivered(s.core.log) + (filled.data + Flatten(left)) == Delivered(s.core.log) + filled.data + Flatten(left);
    var t := ReadByob(s, memory, offset, element, len, min).s;
    assert t.pending == [filled] && t.queue == left && left != [];
    assert t.core.log == s.core.log && t.produced == s.produced && !t.dropped;
  }

  lemma WholeViewIsUnready(available: nat, d: Descriptor)
    requires WellShaped(d) && Unsatisfied(d) && d.data == [] && d.min == d.Length() && d.Length() < available
    ensures !Ready(available, d) && CopyCount(available, d) == d.Length()
  {
  }

  /** What it costs: the next chunk that is accepted hangs, whatever it is. */
  lemma OverfullReadHangs(
      s: Stream, memory: seq<byte>, offset: nat, element: Positive, len: nat, min: nat, chunk: seq<byte>)
    requires Sound(s) && s.core.kind == ByobReader && 0 < min <= len && |memory| == len * element
    requires Overfull(s, memory, len, min) && chunk != []
    ensures Enqueue(ReadByob(s, memory, offset, element, len, min).s, chunk).Hang?
  {
    hide ReadByob, Sound, Conserved, Starved;
    OverfullRead(s, memory, offset, element, len, min);
    FullReadHangs(ReadByob(s, memory, offset, element, len, min).s, chunk);
  }

  lemma FullReadHangs(t: Stream, chunk: seq<byte>)
    requires CanCloseOrEnqueue(t) && t.core.kind == ByobReader && Accounts(t) && chunk != []
    requires |t.pending| == 1 && t.pending[0].kind == ByobReader && WellShaped(t.pending[0])
    requires t.pending[0].rest == [] && t.pending[0].min == t.pending[0].Length()
    ensures Enqueue(t, chunk).Hang?
  {
    hide Flatten, NoEmptyChunk, DropFirst;
    var d := t.pending[0];
    PushChunkAccounts(t, chunk);
    FlattenPush(t.queue, chunk);
    var queue := t.queue + [chunk];
    FullIsUnready(|Flatten(queue)|, d);
    DropFirstFlattens(queue, 0);
    assert Process(queue, t.pending, t.core.requests, Readable).Spins?;
  }

  lemma FullIsUnready(available: nat, d: Descriptor)
    requires WellShaped(d) && d.rest == [] && d.min == d.Length()
    ensures !Ready(available, d) && CopyCount(available, d) == 0
  {
  }
}
