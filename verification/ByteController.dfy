/** ReadableByteStreamController as an object, each method proved against the byte-stream machine. */
module ByteController {
  import opened Chunks
  import opened StreamCore
  import opened Wrappers
  import opened PullProtocol
  import opened PullInto
  import opened ReadableObjects
  import opened ByteStream
  import opened ByteLifecycle
  import opened ByteOutcomes

  /** A queued chunk is a window into a buffer; consuming part of it moves the window's start. */
  datatype Entry = Entry(buffer: seq<byte>, offset: nat, length: nat)
  {
    ghost predicate Valid() { offset + length <= |buffer| }

    function Bytes(): seq<byte>
      requires Valid()
    {
      buffer[offset..offset + length]
    }

    lemma Split(n: nat)
      requires Valid() && n <= length
      ensures buffer[offset..offset + n] == Bytes()[..n]
      ensures Entry(buffer, offset + n, length - n).Bytes() == Bytes()[n..]
    {
      assert buffer[offset..offset + n] == buffer[offset..offset + length][..n];
      assert buffer[offset + n..offset + length] == buffer[offset..offset + length][n..];
    }
  }

  /**
   How a call ends: it returns, fails an `unwrap` (or underflows), or hangs. A method that hangs stops
   where nothing can change any more: `ProcessDescribesLoop` shows that the loop never exits from there.
   */
  datatype Ending = Finished | Panicked | Hung

  predicate EndsAs(ending: Ending, r: Outcome) {
    match ending
    case Finished => r.Returns?
    case Panicked => r.Panic?
    case Hung => r.Hang?
  }

  ghost predicate AllValid(queue: seq<Entry>) {
    forall i :: 0 <= i < |queue| ==> queue[i].Valid()
  }

  function Contents(queue: seq<Entry>): (chunks: seq<seq<byte>>)
    requires AllValid(queue)
    ensures |chunks| == |queue|
  {
    seq(|queue|, i requires 0 <= i < |queue| => queue[i].Bytes())
  }

  lemma ContentsPush(queue: seq<Entry>, e: Entry)
    requires AllValid(queue) && e.Valid()
    ensures Contents(queue + [e]) == Contents(queue) + [e.Bytes()]
  {
  }

  lemma ContentsTail(queue: seq<Entry>)
    requires AllValid(queue) && queue != []
    ensures Contents(queue[1..]) == Contents(queue)[1..]
  {
  }

  lemma ContentsFront(queue: seq<Entry>)
    requires AllValid(queue) && queue != [] && NoEmptyChunk(Contents(queue))
    ensures Contents(queue)[0] == queue[0].Bytes()
    ensures |Flatten(Contents(queue)[1..])| == |Flatten(Contents(queue))| - queue[0].length
    ensures NoEmptyChunk(Contents(queue)[1..])
  {
  }

  lemma ContentsReplaceFront(queue: seq<Entry>, e: Entry)
    requires AllValid(queue) && queue != [] && e.Valid()
    ensures AllValid([e] + queue[1..])
    ensures Contents([e] + queue[1..]) == [e.Bytes()] + Contents(queue)[1..]
  {
  }

  lemma DropNone<T>(queue: seq<seq<T>>)
    ensures DropFirst(queue, 0) == queue
  {
  }

  lemma TakeFront<T>(queue: seq<seq<T>>, n: nat)
    requires NoEmptyChunk(queue) && queue != [] && 0 < n <= |queue[0]|
    ensures n <= |Flatten(queue)| && Flatten(queue)[..n] == queue[0][..n]
    ensures DropFirst(queue, n) == if n == |queue[0]| then queue[1..] else [queue[0][n..]] + queue[1..]
    ensures Flatten(DropFirst(queue, n)) == Flatten(queue)[n..] && NoEmptyChunk(DropFirst(queue, n))
  {
    assert Flatten(queue) == queue[0] + Flatten(queue[1..]);
    DropFirstFlattens(queue, n);
  }

  /** Consuming in two steps is consuming once. */
  lemma {:induction false} DropFirstTwice<T>(queue: seq<seq<T>>, a: nat, b: nat)
    requires NoEmptyChunk(queue) && a + b <= |Flatten(queue)|
    ensures b <= |Flatten(DropFirst(queue, a))|
    ensures DropFirst(DropFirst(queue, a), b) == DropFirst(queue, a + b)
    decreases |queue|
  {
    DropFirstFlattens(queue, a);
    if a == 0 {
    } else if |queue[0]| <= a {
      DropFirstTwice(queue[1..], a - |queue[0]|, b);
    } else {
      var rest := queue[0][a..];
      assert ([rest] + queue[1..])[1..] == queue[1..];
      if b > 0 && b < |rest| {
        assert rest[b..] == queue[0][a + b..];
      }
    }
  }

  /** The front descriptor is taken off, and the bytes beyond its last whole element are queued. */
  ghost function TailBack(s: Stream): Stream
    requires s.pending != []
  {
    var d := s.pending[0];
    var tail := d.Filled() % d.element;
    var s := s.(pending := s.pending[1..]);
    if tail > 0 then PushChunk(s, d.data[d.Filled() - tail..]) else s
  }

  lemma SatisfiedAnswer(s: Stream)
    requires s.pending != [] && s.pending[0].kind != NoReader && s.pending[0].min <= s.pending[0].Filled()
    ensures var d := s.pending[0];
            var r := if s.core.kind == ByobReader then CommitThenProcess(TailBack(s), d.(data := d.View()))
                     else Returns(TailBack(s), true);
            RespondReadable(s) == if r.Returns? then Returns(ByteStream.PullIfNeeded(r.s), true) else r
  {
    hide CommitThenProcess, ByteStream.PullIfNeeded;
  }

  class ByobRequest {
    /** The controller the request still speaks for. */
    var controller: ByteStreamController?

    constructor (controller: ByteStreamController)
      ensures this.controller == controller
    {
      this.controller := controller;
    }
  }

  class ByteStreamController {
    const common: CommonController<seq<byte>>
    const autoAllocate: nat
    var byobRequest: ByobRequest?
    var pending: seq<Descriptor>
    var queue: seq<Entry>
    ghost var asks: seq<Ask>
    ghost var produced: seq<byte>
    ghost var dropped: bool

    constructor (stream: ReadableStream<seq<byte>>, highWaterMark: HighWaterMark, autoAllocate: nat)
      requires stream.Valid() && stream.Core() == NewCore()
      ensures Valid() && View() == NewStream(highWaterMark, autoAllocate)
      ensures common.stream == stream && fresh(common)
    {
      common := new CommonController(stream, highWaterMark);
      this.autoAllocate := autoAllocate;
      byobRequest, pending, queue, asks, produced, dropped := null, [], [], [], [], false;
      new;
      NewStreamIsBase(highWaterMark, autoAllocate);
    }

    /** How the objects hang together, and that the byte count matches the queue. */
    ghost predicate Wired()
      reads this, common, common.stream, byobRequest
    {
      && common.stream.Valid()
      && AllValid(queue)
      && NoEmptyChunk(Contents(queue))
      && common.queueSize == |Flatten(Contents(queue))|
      && (byobRequest != null ==> byobRequest.controller == null || byobRequest.controller == this)
    }

    ghost predicate Valid()
      reads this, common, common.stream, common.stream.reader, byobRequest
    {
      Wired() && Base(View())
    }

    ghost function SlotView(): Slot
      reads this, byobRequest
    {
      if byobRequest == null then Vacant else if byobRequest.controller == null then Spent else Live
    }

    ghost function View(): Stream
      requires AllValid(queue)
      reads this, common, common.stream, common.stream.reader, byobRequest
    {
      Stream(common.stream.Core(), common.Pull(), common.closeRequested, common.queueSize, common.highWaterMark,
             autoAllocate, SlotView(), pending, Contents(queue), asks, produced, dropped)
    }

    // ---- Queue and descriptors ------------------------------------------------------------------

    /** One round of the copy loop: bytes of the front chunk, at most `remaining`, leave the queue. */
    method TakeFromFront(remaining: nat) returns (bytes: seq<byte>)
      requires Wired() && 0 < remaining <= common.queueSize
      modifies this`queue, common`queueSize
      ensures Wired()
      ensures 0 < |bytes| <= remaining && bytes == Flatten(old(Contents(queue)))[..|bytes|]
      ensures Contents(queue) == DropFirst(old(Contents(queue)), |bytes|)
      ensures common.queueSize == old(common.queueSize) - |bytes|
    {
      ghost var before := Contents(queue);
      EmptyQueueHoldsNothing(before);
      var front := queue[0];
      assert before[0] == front.Bytes() && front.length == |before[0]| > 0;
      var copy := if remaining <= front.length then remaining else front.length;
      bytes := front.buffer[front.offset..front.offset + copy];
      front.Split(copy);
      TakeFront(before, copy);
      if copy == front.length {
        ContentsTail(queue);
        queue := queue[1..];
      } else {
        var moved := Entry(front.buffer, front.offset + copy, front.length - copy);
        ContentsReplaceFront(queue, moved);
        queue := [moved] + queue[1..];
      }
      common.queueSize := common.queueSize - copy;
    }

    method FillPullIntoDescriptor(d: Descriptor) returns (filled: Descriptor, ready: bool)
      requires Wired() && 0 <= CopyCount(common.queueSize, d)
      modifies this`queue, common`queueSize
      ensures Wired()
      ensures ready == Ready(old(common.queueSize), d)
      ensures filled == FilledFrom(old(Contents(queue)), d)
      ensures Contents(queue) == QueueAfter(old(Contents(queue)), d)
      ensures common.queueSize == old(common.queueSize) - CopyCount(old(common.queueSize), d)
      ensures ready ==>
                forall n: nat :: n % d.element == 0 && n <= d.Length() && n <= d.Filled() + old(common.queueSize)
                                 ==> n <= filled.Filled()
      ensures !ready ==> filled.Filled() == MostBytes(old(common.queueSize), d)
    {
      hide DropFirst, Flatten;
      CopiesTheMost(common.queueSize, d);
      ghost var before := Contents(queue);
      ghost var total := CopyCount(common.queueSize, d);
      var maxCopy := MaxCopy(common.queueSize, d);
      var maxAligned := MaxAligned(common.queueSize, d);
      ready := maxAligned > d.min;
      var remaining: nat := if ready then maxAligned - d.Filled() else maxCopy;
      ghost var done: nat := 0;
      filled := d;
      assert d.Absorb([]) == d;
      DropNone(before);
      while remaining > 0
        invariant done + remaining == total <= |Flatten(before)| && total <= |d.rest|
        invariant Wired()
        invariant common.queueSize == |Flatten(before)| - done
        invariant filled == d.Absorb(Flatten(before)[..done])
        invariant Contents(queue) == DropFirst(before, done)
        modifies this`queue, common`queueSize
      {
        var bytes := TakeFromFront(remaining);
        AbsorbMore(before, d, done, bytes);
        filled := filled.Absorb(bytes);
        remaining := remaining - |bytes|;
        done := done + |bytes|;
      }
    }

    method EnqueueClonedChunk(bytes: seq<byte>)
      requires Wired() && bytes != []
      modifies this`queue, common`queueSize
      ensures Wired() && View() == PushChunk(old(View()), bytes)
    {
      var e := Entry(bytes, 0, |bytes|);
      assert e.Bytes() == bytes;
      PushEntry(e);
    }

    method PushEntry(e: Entry)
      requires Wired() && e.Valid() && e.length > 0
      modifies this`queue, common`queueSize
      ensures Wired() && View() == PushChunk(old(View()), e.Bytes())
    {
      ContentsPush(queue, e);
      FlattenPush(Contents(queue), e.Bytes());
      queue := queue + [e];
      common.queueSize := common.queueSize + e.length;
    }

    method PullIfNeeded()
      requires Wired()
      modifies common
      ensures Wired() && View() == ByteStream.PullIfNeeded(old(View()))
      ensures common.queueSize == old(common.queueSize) && common.closeRequested == old(common.closeRequested)
      ensures common.CalledIfDue(old(common.trace), old(common.pulling))
    {
      hide Calls, Flatten, NoEmptyChunk, CommonController.CalledIfDue;
      common.PullIfNeeded();
    }

    method InvalidateByobRequest()
      requires Wired()
      modifies this`byobRequest, byobRequest
      ensures Wired() && byobRequest == null && View() == old(View()).(slot := Vacant)
    {
      if byobRequest != null {
        byobRequest.controller := null;
        byobRequest := null;
      }
    }

    method ResetQueue()
      requires Wired()
      modifies this, common`queueSize, byobRequest
      ensures Wired() && View() == ByteStream.ResetQueue(old(View())) && byobRequest == null
    {
      InvalidateByobRequest();
      pending := [];
      queue := [];
      common.queueSize := 0;
      dropped := true;
    }

    method ErrorInternal(reason: Reason)
      requires Wired()
      modifies this, common`queueSize, common.stream, common.stream.reader, byobRequest
      ensures Wired() && View() == ByteStream.ErrorInternal(old(View()), reason)
      ensures common.stream.reader == old(common.stream.reader)
    {
      if common.stream.state == Readable {
        ResetQueue();
        var _ := common.stream.Fail(reason);
      }
    }

    // ---- Processing -----------------------------------------------------------------------------

    /** PullIntoDescriptor::commit: the first waiting request is settled with the descriptor's view. */
    method Commit(d: Descriptor, st: State)
      requires Wired() && common.stream.HasRequests()
      modifies common.stream`log, common.stream.reader
      ensures Wired()
      ensures View() == old(View()).(core := Settle(old(View()).core, CommitEvent(d, old(View()).core.requests[0], st))
                                             .(requests := old(View()).core.requests[1..]))
    {
      var reader := common.stream.reader;
      var request := reader.requests[0];
      reader.requests := reader.requests[1..];
      common.stream.Report(CommitEvent(d, request, st));
    }

    ghost function LoopView(): Loop
      requires AllValid(queue) && common.stream.reader != null
      reads this, common, common.stream, common.stream.reader
    {
      Loop(Contents(queue), pending, common.stream.reader.requests, common.stream.log)
    }

    /** The body of the processing loop. */
    method ProcessFront() returns (ending: Ending)
      requires Wired() && common.stream.reader != null
      requires Guard(LoopView()) && 0 <= CopyCount(common.queueSize, pending[0])
      modifies this`queue, this`pending, common`queueSize, common.stream`log, common.stream.reader
      ensures ending == Panicked <==> !CanIterate(old(LoopView()))
      ensures ending == Hung <==>
        && !Ready(old(common.queueSize), old(pending[0]))
        && |Flatten(QueueAfter(old(Contents(queue)), old(pending[0])))| > 0
      ensures ending == Finished ==>
        Wired() && CanIterate(old(LoopView())) && LoopView() == Iterate(old(LoopView()), common.stream.state)
    {
      hide Process, StillRunning, Ready, CopyCount;
      var shift := false;
      var descriptor, ready := FillPullIntoDescriptor(pending[0]);
      pending := pending[0 := descriptor];
      assert pending == [descriptor] + old(pending[1..]);
      if ready {
        shift := true;
      }
      if shift {
        descriptor := pending[0];
        pending := pending[1..];
        if !common.stream.HasRequests() {
          return Panicked;
        }
        Commit(descriptor, common.stream.state);
      } else if common.queueSize > 0 {
        return Hung;
      }
      ending := Finished;
    }

    ghost function Outcome(): Progress
      requires AllValid(queue) && common.stream.reader != null
      reads this, common, common.stream, common.stream.reader
    {
      Process(Contents(queue), pending, common.stream.reader.requests, common.stream.state)
    }

    /** One pass of the loop, and the events by which the loop's outcome has come nearer. */
    method ProcessNext() returns (ending: Ending, ghost events: seq<Event<seq<byte>>>)
      requires Wired() && common.stream.reader != null && Guard(LoopView())
      modifies this`queue, this`pending, common`queueSize, common.stream`log, common.stream.reader
      ensures ending == Panicked ==> old(Outcome()).Panics?
      ensures ending == Hung ==> old(Outcome()).Spins?
      ensures ending == Finished ==>
        && Wired() && old(Outcome()) == Prepend(events, Outcome())
        && common.stream.log == old(common.stream.log) + events
        && (|pending| < old(|pending|) || (|pending| == old(|pending|) && common.queueSize < old(common.queueSize)))
    {
      hide Iterate, Flatten, Base, NoEmptyChunk, Evaluate, CommitEvent, QueueAfter, FilledFrom, Ready, CopyCount,
        Process;
      ghost var before := LoopView();
      ghost var st := common.stream.state;
      events := [];
      if CopyCount(common.queueSize, pending[0]) < 0 {
        UnderflowPanics(before, st);
        return Panicked, [];
      }
      IterationDecides(before, st);
      ending := ProcessFront();
      if ending == Finished {
        events := LoopView().events[|before.events|..];
      }
    }

    method ProcessDescriptors() returns (ending: Ending)
      requires Wired() && common.stream.reader != null
      modifies this`queue, this`pending, common`queueSize, common.stream`log, common.stream.reader
      ensures EndsAs(ending, ByteStream.ProcessDescriptors(old(View())))
      ensures ending == Finished ==> Wired() && View() == ByteStream.ProcessDescriptors(old(View())).s
    {
      hide Flatten, Base, NoEmptyChunk, Evaluate, Process, Prepend;
      ghost var goal := Outcome();
      ghost var log := common.stream.log;
      ghost var settled: seq<Event<seq<byte>>> := [];
      PrependNothing(goal);
      while pending != []
        invariant Wired()
        invariant goal == Prepend(settled, Outcome())
        invariant common.stream.log == log + settled
        modifies this`queue, this`pending, common`queueSize, common.stream`log, common.stream.reader
        decreases |pending|, common.queueSize
      {
        if common.queueSize == 0 {
          break;
        }
        ghost var events: seq<Event<seq<byte>>>;
        ending, events := ProcessNext();
        if ending != Finished {
          PrependKeepsFailure(settled, Panics);
          PrependKeepsFailure(settled, Spins);
          return;
        }
        PrependTwice(settled, events, Outcome());
        settled := settled + events;
      }
      LoopIsDone(LoopView(), common.stream.state, settled);
      ending := Finished;
    }

    // ---- Operations of the controller -----------------------------------------------------------

    method Close() returns (ok: bool)
      requires Valid()
      modifies this, common`closeRequested, common`queueSize, common.stream, common.stream.reader, byobRequest
      ensures Valid() && View() == ByteStream.Close(old(View())).s && ok == ByteStream.Close(old(View())).ok
    {
      ghost var before := View();
      CloseKeepsBase(before);
      hide Base, Flatten, NoEmptyChunk, ByteStream.ErrorInternal, CloseCore;
      if !common.CanCloseOrEnqueue() {
        return false;
      }
      if common.queueSize > 0 {
        common.closeRequested := true;
      }
      assert View() == before.(closeRequested := before.size > 0);
      if pending != [] {
        var descriptor := pending[0];
        if descriptor.Filled() % descriptor.element > 0 {
          ErrorInternal(PendingNotAligned);
          return false;
        }
      }
      CloseStream();
      ok := true;
    }

    /** ReadableStream::close on the controller's own, readable stream. */
    method CloseStream()
      requires Wired() && common.stream.state == Readable
      modifies common.stream, common.stream.reader
      ensures Wired() && View() == old(View()).(core := CloseCore(old(View()).core))
    {
      hide Base, Flatten, NoEmptyChunk, CloseCore;
      var _ := common.stream.Close();
    }

    method Error(reason: Reason)
      requires Valid()
      modifies this, common`queueSize, common.stream, common.stream.reader, byobRequest
      ensures Valid() && View() == ByteStream.ErrorInternal(old(View()), reason)
    {
      ErrorInternalKeepsBase(View(), reason);
      ErrorInternal(reason);
    }

    method GetByobRequest() returns (request: ByobRequest?)
      requires Valid()
      modifies this`byobRequest
      ensures Valid() && View() == ByteStream.GetByobRequest(old(View())) && request == byobRequest
    {
      if byobRequest == null && pending != [] {
        byobRequest := new ByobRequest(this);
      }
      request := byobRequest;
    }

    /** The loop of `enqueue` that hands chunks to the waiting requests of a default reader. */
    method ServeRequests(chunk: Entry)
      requires Wired() && chunk.Valid() && chunk.length > 0
      requires common.stream.reader != null && !common.closeRequested
      modifies this`queue, this`pending, common, common.stream`log, common.stream.reader
      ensures Wired() && Returns(View(), true) == Serve(old(View()), chunk.Bytes())
    {
      hide Base, Evaluate, Flatten, NoEmptyChunk, Serve, ByteStream.PullIfNeeded;
      ghost var goal := Serve(View(), chunk.Bytes());
      var reader := common.stream.reader;
      var complete := false;
      while reader.requests != []
        invariant Wired() && common.stream.reader == reader && !common.closeRequested
        invariant !complete && Serve(View(), chunk.Bytes()) == goal
        modifies this`queue, this`pending, common, common.stream`log, reader
        decreases |reader.requests|
      {
        ServeUnfolds(View(), chunk.Bytes());
        EmptyQueueHoldsNothing(Contents(queue));
        var request := reader.requests[0];
        reader.requests := reader.requests[1..];
        if common.queueSize == 0 {
          if pending != [] {
            pending := pending[1..];
          }
          common.stream.Report(Served(request, chunk.Bytes()));
          complete := true;
          break;
        }
        ServeFront(request);
      }
      if !complete {
        ServeUnfolds(View(), chunk.Bytes());
        PushEntry(chunk);
      }
    }

    /** The front chunk answers a request that has been taken from the reader. */
    method ServeFront(request: nat)
      requires Wired() && queue != [] && !common.closeRequested
      modifies this`queue, common, common.stream`log
      ensures Wired() && !common.closeRequested
      ensures var before := old(View());
              var popped := before.(queue := before.queue[1..], size := before.size - |before.queue[0]|);
              View() == SettleWith(ByteStream.PullIfNeeded(popped), Served(request, before.queue[0]))
    {
      hide Base, Evaluate, Flatten, ShouldCallPull, SettleWith;
      ContentsFront(queue);
      var front := queue[0];
      ContentsTail(queue);
      assert Contents(queue)[0] == front.Bytes();
      queue := queue[1..];
      common.queueSize := common.queueSize - front.length;
      if common.queueSize == 0 && common.closeRequested {
        assert false;
      } else {
        PullIfNeeded();
      }
      Report(Served(request, front.Bytes()));
    }

    /** A detached front descriptor gives way to the new chunk. */
    method ShiftDetached()
      requires Wired() && Shapes(pending)
      modifies this, common`queueSize, byobRequest
      ensures Wired() && View() == ByteStream.ShiftDetached(old(View()))
      ensures common.closeRequested == old(common.closeRequested)
    {
      hide Base, Flatten, NoEmptyChunk, PushChunk, Evaluate, WellShaped;
      var shift := false;
      if pending != [] {
        InvalidateByobRequest();
        var descriptor := pending[0];
        HasMemory(descriptor);
        if descriptor.kind == NoReader {
          if descriptor.Filled() > 0 {
            EnqueueClonedChunk(descriptor.data + descriptor.rest);
          }
          shift := true;
        }
      }
      if shift {
        pending := pending[1..];
      }
    }

    method Enqueue(chunk: Entry) returns (ending: Ending, ok: bool)
      requires Valid() && chunk.Valid()
      modifies this, common, common.stream`log, common.stream.reader, byobRequest
      ensures EndsAs(ending, ByteStream.Enqueue(old(View()), chunk.Bytes()))
      ensures ending == Finished ==> Valid() && Returns(View(), ok) == ByteStream.Enqueue(old(View()), chunk.Bytes())
    {
      ghost var before := View();
      if ByteStream.Enqueue(before, chunk.Bytes()).Returns? {
        EnqueueKeepsBase(before, chunk.Bytes());
      }
      assert Shapes(pending);
      hide Base, Arrive, Flatten, NoEmptyChunk, Evaluate, ByteStream.ShiftDetached, WellShaped;
      if chunk.length == 0 {
        return Finished, false;
      }
      if !common.CanCloseOrEnqueue() {
        return Finished, false;
      }
      ok := true;
      ending := EnqueueAccepted(chunk);
    }

    method EnqueueAccepted(chunk: Entry) returns (ending: Ending)
      requires Wired() && Shapes(pending) && chunk.Valid() && chunk.length > 0 && common.CanCloseOrEnqueue()
      modifies this, common, common.stream`log, common.stream.reader, byobRequest
      ensures var s := old(View());
              EndsAs(ending, Arrive(ByteStream.ShiftDetached(s.(produced := s.produced + chunk.Bytes())),
                                    chunk.Bytes()))
      ensures var s := old(View());
              ending == Finished ==>
                && Wired()
                && Returns(View(), true) ==
                   Arrive(ByteStream.ShiftDetached(s.(produced := s.produced + chunk.Bytes())), chunk.Bytes())
    {
      hide Base, Arrive, Flatten, NoEmptyChunk, ByteStream.ShiftDetached, WellShaped;
      produced := produced + chunk.Bytes();
      ghost var arrived := View();
      assert arrived == old(View()).(produced := old(View()).produced + chunk.Bytes());
      ShiftDetached();
      ending := EnqueueShifted(chunk);
    }

    /** The rest of `enqueue`, once a detached descriptor is out of the way. */
    method EnqueueShifted(chunk: Entry) returns (ending: Ending)
      requires Wired() && chunk.Valid() && chunk.length > 0 && common.CanCloseOrEnqueue()
      modifies this`queue, this`pending, common, common.stream`log, common.stream.reader
      ensures EndsAs(ending, Arrive(old(View()), chunk.Bytes()))
      ensures ending == Finished ==> Wired() && Returns(View(), true) == Arrive(old(View()), chunk.Bytes())
    {
      hide Base, Serve, ByteStream.ProcessDescriptors, Flatten, NoEmptyChunk, Evaluate, ShouldCallPull;
      ending := Finished;
      match common.stream.readerKind {
        case DefaultReader => ServeRequests(chunk);
        case ByobReader =>
          PushEntry(chunk);
          ending := ProcessDescriptors();
        case NoReader => PushEntry(chunk);
      }
      if ending == Finished {
        PullIfNeeded();
      }
    }

    // ---- Answers to a BYOB request --------------------------------------------------------------

    /** ByobRequest::respond, once the source has written `bytes` into the request's view. */
    method RespondTo(request: ByobRequest, bytes: seq<byte>) returns (ending: Ending, ok: bool)
      requires Valid() && (request.controller != null ==> request == byobRequest)
      modifies this, common, common.stream`log, common.stream.reader, request
      ensures old(request.controller) == null ==> ending == Finished && !ok && Valid() && View() == old(View())
      ensures old(request.controller) != null ==>
        && EndsAs(ending, Respond(old(View()), bytes))
        && (ending == Finished ==> Valid() && Returns(View(), ok) == Respond(old(View()), bytes))
    {
      if request.controller == null {
        return Finished, false;
      }
      request.controller := null;
      ghost var spent := View();
      assert Base(spent);
      if pending[0].rest == [] {
        return Finished, false;
      }
      ending, ok := RespondInternally(bytes);
    }

    /** ByobRequest::respond_with_new_view. */
    method RespondToWithNewView(request: ByobRequest, view: seq<byte>, offset: nat)
      returns (ending: Ending, ok: bool)
      requires Valid() && (request.controller != null ==> request == byobRequest)
      modifies this, common, common.stream`log, common.stream.reader, request
      ensures old(request.controller) == null ==> ending == Finished && !ok && Valid() && View() == old(View())
      ensures old(request.controller) != null ==>
        && EndsAs(ending, RespondWithNewView(old(View()), view, offset))
        && (ending == Finished ==> Valid() && Returns(View(), ok) == RespondWithNewView(old(View()), view, offset))
    {
      if request.controller == null {
        return Finished, false;
      }
      request.controller := null;
      ghost var spent := View();
      assert Base(spent);
      match common.stream.state {
        case Readable => if view == [] { return Finished, false; }
        case Closed => if view != [] { return Finished, false; }
        case Errored => assert false;
      }
      var descriptor := pending[0];
      if descriptor.offset + descriptor.Filled() != offset {
        return Finished, false;
      }
      if descriptor.Length() != |view| {
        return Finished, false;
      }
      if descriptor.Filled() + |view| > descriptor.Length() {
        return Finished, false;
      }
      ending, ok := RespondInternally(view);
    }

    /** ByteStreamController::respond. */
    method RespondInternally(bytes: seq<byte>) returns (ending: Ending, ok: bool)
      requires Valid() && pending != [] && SlotView() != Live
      modifies this, common, common.stream`log, common.stream.reader, byobRequest
      ensures EndsAs(ending, RespondInternal(old(View()), bytes))
      ensures ending == Finished ==> Valid() && Returns(View(), ok) == RespondInternal(old(View()), bytes)
    {
      ghost var before := View();
      if RespondInternal(before, bytes).Returns? {
        RespondInternalKeepsBase(before, bytes);
      }
      hide Base, RespondReadable, RespondClosed, Flatten, NoEmptyChunk;
      var descriptor := pending[0];
      match common.stream.state {
        case Readable =>
          if bytes == [] {
            return Finished, false;
          }
          if descriptor.Filled() + |bytes| > descriptor.Length() {
            return Finished, false;
          }
        case Closed =>
          if bytes != [] {
            return Finished, false;
          }
        case Errored => return Finished, false;
      }
      ok := true;
      InvalidateByobRequest();
      assert View() == before.(slot := Vacant);
      match common.stream.state {
        case Readable =>
          Absorb(bytes);
          ending := RespondWhileReadable();
        case Closed =>
          ending := RespondAfterClose();
      }
    }

    /** The source has written the bytes into the front descriptor's buffer. */
    method Absorb(bytes: seq<byte>)
      requires Wired() && pending != [] && |bytes| <= |pending[0].rest|
      modifies `pending, `produced
      ensures Wired()
      ensures View() == old(View()).(pending := old(pending)[0 := old(pending)[0].Absorb(bytes)],
                                     produced := old(produced) + bytes)
    {
      pending := pending[0 := pending[0].Absorb(bytes)];
      produced := produced + bytes;
    }

    method RespondWhileReadable() returns (ending: Ending)
      requires Wired() && pending != [] && pending[0].data != []
      modifies this, common, common.stream`log, common.stream.reader
      ensures EndsAs(ending, RespondReadable(old(View())))
      ensures ending == Finished ==> Wired() && Returns(View(), true) == RespondReadable(old(View()))
    {
      hide Base, Flatten, Evaluate, NoEmptyChunk, ByteStream.ProcessDescriptors, CommitThenProcess;
      var descriptor := pending[0];
      match descriptor.kind {
        case NoReader => ending := RequeueDetached(descriptor);
        case _ =>
          if descriptor.Filled() < descriptor.min {
            return Finished;
          }
          ending := CommitSatisfied();
      }
      if ending == Finished {
        PullIfNeeded();
      }
    }

    method RequeueDetached(descriptor: Descriptor) returns (ending: Ending)
      requires Wired() && pending != [] && pending[0] == descriptor && descriptor.data != []
      requires descriptor.kind == NoReader
      modifies this`queue, this`pending, common`queueSize, common.stream`log, common.stream.reader
      ensures EndsAs(ending, RespondReadable(old(View())))
      ensures ending == Finished ==>
        Wired() && Returns(ByteStream.PullIfNeeded(View()), true) == RespondReadable(old(View()))
    {
      hide Base, Flatten, Evaluate, NoEmptyChunk, ByteStream.ProcessDescriptors;
      ending := Finished;
      if descriptor.Filled() > 0 {
        EnqueueClonedChunk(descriptor.data + descriptor.rest);
      }
      if common.stream.readerKind == ByobReader {
        ending := ProcessDescriptors();
      }
    }

    /** Takes the satisfied descriptor off, without the unaligned tail, which goes back on the queue. */
    method TakeSatisfied() returns (descriptor: Descriptor)
      requires Wired() && pending != [] && pending[0].data != []
      modifies this`queue, this`pending, common`queueSize
      ensures Wired() && View() == TailBack(old(View()))
      ensures descriptor == old(pending[0]).(data := old(pending[0]).View())
    {
      hide Base, Flatten, Evaluate, NoEmptyChunk;
      descriptor := pending[0];
      pending := pending[1..];
      var remainder := descriptor.Filled() % descriptor.element;
      if remainder > 0 {
        EnqueueClonedChunk(descriptor.data[descriptor.Filled() - remainder..]);
      }
      descriptor := descriptor.(data := descriptor.data[..descriptor.Filled() - remainder]);
    }

    method CommitSatisfied() returns (ending: Ending)
      requires Wired() && pending != [] && pending[0].kind != NoReader && pending[0].data != []
      requires pending[0].min <= pending[0].Filled()
      modifies this`queue, this`pending, common`queueSize, common.stream`log, common.stream.reader
      ensures EndsAs(ending, RespondReadable(old(View())))
      ensures ending == Finished ==>
        Wired() && Returns(ByteStream.PullIfNeeded(View()), true) == RespondReadable(old(View()))
    {
      SatisfiedAnswer(View());
      hide Base, Flatten, Evaluate, NoEmptyChunk, CommitEvent, ShouldCallPull, RespondReadable,
        ByteStream.ProcessDescriptors;
      var descriptor := TakeSatisfied();
      hide TailBack;
      ending := Finished;
      if common.stream.readerKind == ByobReader {
        if !common.stream.HasRequests() {
          return Panicked;
        }
        Commit(descriptor, common.stream.state);
        ending := ProcessDescriptors();
      }
    }

    method RespondAfterClose() returns (ending: Ending)
      requires Wired() && pending != []
      modifies this, common, common.stream`log, common.stream.reader
      ensures EndsAs(ending, RespondClosed(old(View())))
      ensures ending == Finished ==> Wired() && Returns(View(), true) == RespondClosed(old(View()))
    {
      hide Base, Process, Flatten, Evaluate, NoEmptyChunk, CommitEvent;
      ending := Finished;
      if common.stream.readerKind == ByobReader {
        ending := DrainPending();
      } else {
        pending := pending[1..];
      }
      if ending == Finished {
        PullIfNeeded();
      }
    }

    /** Every waiting read is settled with the next descriptor; there may be too few of them. */
    method DrainPending() returns (ending: Ending)
      requires Wired() && common.stream.reader != null
      modifies this`pending, common.stream`log, common.stream.reader
      ensures ending == if old(|pending|) < old(|common.stream.reader.requests|) then Panicked else Finished
      ensures ending == Finished ==>
        var s := old(View());
        && Wired()
        && View() == s.(pending := s.pending[|s.core.requests|..],
                        core := s.core.(requests := [], log := s.core.log + DrainEvents(s.pending, s.core.requests)))
    {
      hide Base, Process, Flatten, Evaluate, NoEmptyChunk, CommitEvent;
      var reader := common.stream.reader;
      ghost var before := View();
      ghost var requests := reader.requests;
      ghost var events: seq<Event<seq<byte>>> := [];
      ghost var done := 0;
      while reader.requests != []
        invariant 0 <= done <= |requests| && done <= |before.pending|
        invariant Wired() && common.stream.reader == reader
        invariant pending == before.pending[done..] && reader.requests == requests[done..]
        invariant |events| == done && common.stream.log == before.core.log + events
        invariant forall i :: 0 <= i < done ==> events[i] == CommitEvent(before.pending[i], requests[i], Closed)
        modifies this`pending, common.stream`log, reader
        decreases |reader.requests|
      {
        if pending == [] {
          return Panicked;
        }
        var descriptor := pending[0];
        pending := pending[1..];
        events := events + [CommitEvent(descriptor, reader.requests[0], Closed)];
        Commit(descriptor, Closed);
        done := done + 1;
      }
      assert events == DrainEvents(before.pending, requests);
      ending := Finished;
    }

    // ---- Calls made through a reader ------------------------------------------------------------

    /** DefaultReader::read on a stream with this controller (Controller::pull). */
    method ReadThroughDefaultReader() returns (ok: bool)
      requires Valid()
      modifies this, common, common.stream, common.stream.reader
      ensures Valid() && View() == ReadDefault(old(View())).s && ok == ReadDefault(old(View())).ok
    {
      ghost var before := View();
      ReadDefaultKeepsBase(before);
      assert common.closeRequested ==> common.stream.state != Readable;
      EmptyQueueHoldsNothing(Contents(queue));
      hide Base, Flatten, NoEmptyChunk, Evaluate, SettleWith, ShouldCallPull;
      if common.stream.readerKind != DefaultReader {
        return false;
      }
      ok := true;
      var id := IssueRead(DefaultAsk);
      match common.stream.state {
        case Closed => Report(Ended(id, None));
        case Errored => Report(Failed(id, StoredError(common.stream.Core())));
        case Readable => PullForRead(id);
      }
    }

    /** The next read is numbered, and what it asks for is noted. */
    method IssueRead(ask: Ask) returns (id: nat)
      requires Wired()
      modifies this`asks, common.stream`issued
      ensures Wired() && id == old(View()).core.issued
      ensures View() == old(View()).(core := Issue(old(View()).core), asks := old(View()).asks + [ask])
    {
      hide Base, Flatten, NoEmptyChunk;
      id := common.stream.issued;
      common.stream.issued := id + 1;
      asks := asks + [ask];
    }

    ghost method Report(e: Event<seq<byte>>)
      requires Wired()
      modifies common.stream`log
      ensures Wired() && View() == SettleWith(old(View()), e)
    {
      hide Base, Flatten, NoEmptyChunk;
      common.stream.Report(e);
    }

    /** Controller::pull for the read `id` of a default reader. */
    method PullForRead(id: nat)
      requires Wired() && common.stream.readerKind == DefaultReader && !common.closeRequested
      modifies this`queue, this`pending, common, common.stream`log, common.stream.reader
      ensures Wired()
      ensures var s := old(View());
              View() == if s.size > 0 then
                          SettleWith(ByteStream.PullIfNeeded(
                            s.(queue := s.queue[1..], size := s.size - |s.queue[0]|)), Served(id, s.queue[0]))
                        else
                          var t := if s.auto == 0 then s else s.(pending := s.pending + [AutoDescriptor(s.auto)]);
                          ByteStream.PullIfNeeded(t.(core := t.core.(requests := t.core.requests + [id])))
    {
      hide Base, Evaluate;
      EmptyQueueHoldsNothing(Contents(queue));
      if common.queueSize > 0 {
        ServeFront(id);
      } else {
        if autoAllocate != 0 {
          pending := pending + [AutoDescriptor(autoAllocate)];
        }
        common.stream.reader.requests := common.stream.reader.requests + [id];
        PullIfNeeded();
      }
    }

    /** ByobReader::read for a view of `len` bytes; the descriptor is given `memory`. */
    method ReadThroughByobReader(memory: seq<byte>, offset: nat, element: Positive, len: nat, min: nat)
      returns (ok: bool)
      requires Valid() && |memory| == len * element
      modifies this, common, common.stream, common.stream.reader
      ensures Valid()
      ensures View() == ReadByob(old(View()), memory, offset, element, len, min).s
      ensures ok == ReadByob(old(View()), memory, offset, element, len, min).ok
    {
      ghost var before := View();
      ReadReturns(before, memory, offset, element, len, min);
      ReadByobKeepsBase(before, memory, offset, element, len, min);
      assert common.closeRequested ==> common.stream.state != Readable;
      FreshDescriptorIf(memory, offset, element, len, min);
      hide Base, Flatten, NoEmptyChunk, WellShaped, Unsatisfied, ReadFromQueue, AddPending, SettleWith, Evaluate,
        ShouldCallPull;
      if common.stream.readerKind != ByobReader || len == 0 || min == 0 || min > len {
        return false;
      }
      ok := true;
      var id := IssueRead(ByobAsk(element, min * element, |memory|));
      if common.stream.state == Errored {
        Report(Failed(id, StoredError(common.stream.Core())));
        return;
      }
      var descriptor := Descriptor([], memory, offset, min * element, element, ByobReader);
      ReadInternal(descriptor, id);
    }

    /** The part of ByobReader::read_internal that works on the controller. */
    method ReadInternal(unfilled: Descriptor, id: nat)
      requires Wired() && common.stream.readerKind == ByobReader
      requires !(common.stream.state == Readable && common.closeRequested)
      requires common.stream.state != Errored && WellShaped(unfilled) && Unsatisfied(unfilled) && unfilled.data == []
      modifies this`queue, this`pending, common, common.stream`log, common.stream.reader
      ensures Wired()
      ensures var s := old(View());
              View() == if s.pending != [] then AddPending(s, unfilled, id)
                        else if s.core.st == Closed then SettleWith(s, Ended(id, Some([])))
                        else if s.size > 0 then ReadFromQueue(s, unfilled, id).s
                        else ByteStream.PullIfNeeded(AddPending(s, unfilled, id))
    {
      hide Base, Evaluate, Flatten, NoEmptyChunk, DropFirst, WellShaped, Unsatisfied, AddPending, ReadFromQueue;
      if pending != [] {
        AddWaiting(unfilled, id);
      } else if common.stream.state == Closed {
        assert unfilled.View() == [];
        Report(Ended(id, Some(unfilled.View())));
      } else if common.queueSize > 0 {
        TakeFromQueue(unfilled, id);
      } else {
        AddWaiting(unfilled, id);
        PullIfNeeded();
      }
    }

    /** The descriptor waits, and so does its request while the stream is readable. */
    method AddWaiting(descriptor: Descriptor, id: nat)
      requires Wired() && common.stream.reader != null
      modifies this`pending, common.stream.reader
      ensures Wired() && View() == AddPending(old(View()), descriptor, id)
    {
      hide Base, Flatten, NoEmptyChunk;
      pending := pending + [descriptor];
      if common.stream.state == Readable {
        common.stream.reader.requests := common.stream.reader.requests + [id];
      }
    }

    /** A BYOB read of a readable stream with bytes queued. */
    method TakeFromQueue(unfilled: Descriptor, id: nat)
      requires Wired() && common.stream.readerKind == ByobReader && common.stream.state == Readable
      requires common.queueSize > 0 && !common.closeRequested && pending == []
      requires WellShaped(unfilled) && Unsatisfied(unfilled)
      modifies this`queue, this`pending, common, common.stream`log, common.stream.reader
      ensures Wired() && Returns(View(), true) == ReadFromQueue(old(View()), unfilled, id)
    {
      hide Base, Evaluate, Flatten, NoEmptyChunk, DropFirst, WellShaped, Unsatisfied, AddPending, FilledFrom,
        QueueAfter, Ready, CopyCount;
      FillFacts(Contents(queue), unfilled);
      var descriptor, ready := FillPullIntoDescriptor(unfilled);
      if ready {
        if common.queueSize == 0 && common.closeRequested {
          assert false;
        } else {
          PullIfNeeded();
        }
        Report(Served(id, descriptor.View()));
      } else if common.closeRequested {
        assert false;
      } else {
        AddWaiting(descriptor, id);
        PullIfNeeded();
      }
    }

    /** Controller::release. */
    method DetachFront()
      modifies this`pending
      ensures pending == Detach(old(pending))
    {
      if pending != [] {
        var descriptor := pending[0];
        pending := [];
        descriptor := descriptor.(kind := NoReader);
        pending := pending + [descriptor];
      }
    }

    /** CommonReader::release_lock, with Controller::release. */
    method ReleaseLock() returns (ok: bool)
      requires Valid()
      modifies this`pending, common.stream, common.stream.reader
      ensures Valid() && View() == ByteStream.ReleaseLock(old(View())).s && ok == ByteStream.ReleaseLock(old(View())).ok
    {
      ghost var before := View();
      StepKeepsBase(before, ByteStream.Release);
      hide Base, Flatten, NoEmptyChunk, Step, ReleaseCore, Detach;
      if common.stream.reader == null {
        return false;
      }
      ok := true;
      DetachFront();
      Unlock();
    }

    /** Fails the reader's waiting requests, and the stream has no reader. */
    method Unlock()
      requires Wired() && common.stream.reader != null
      modifies common.stream, common.stream.reader
      ensures Wired() && View() == old(View()).(core := ReleaseCore(old(View()).core))
    {
      hide Base, Flatten, NoEmptyChunk;
      common.stream.FailRequests(ReaderReleased);
      common.stream.readerKind := NoReader;
      common.stream.reader := null;
    }

    /** ReadableStream::cancel, with Controller::cancel. */
    method Cancel() returns (ok: bool)
      requires Valid()
      modifies this, common`queueSize, common.stream, common.stream.reader, byobRequest
      ensures Valid() && View() == ByteStream.Cancel(old(View())).s && ok == ByteStream.Cancel(old(View())).ok
    {
      ghost var before := View();
      StepKeepsBase(before, ByteStream.CancelStream);
      hide Base, FollowsProtocol, Flatten;
      if common.stream.readerKind != NoReader {
        return false;
      }
      ok := true;
      if common.stream.state == Readable {
        CloseStream();
        ResetQueue();
      }
    }
  }

  lemma ServeUnfolds(s: Stream, chunk: seq<byte>)
    requires Accounts(s)
    ensures s.core.requests == [] ==> Serve(s, chunk) == Returns(PushChunk(s, chunk), true)
    ensures s.core.requests != [] ==>
      var t := s.(core := s.core.(requests := s.core.requests[1..]));
      Serve(s, chunk) ==
        if s.size == 0 then
          Returns(SettleWith(t.(pending := if t.pending == [] then [] else t.pending[1..]),
                             Served(s.core.requests[0], chunk)), true)
        else
          Serve(SettleWith(ByteStream.PullIfNeeded(t.(queue := t.queue[1..], size := t.size - |t.queue[0]|)),
                           Served(s.core.requests[0], s.queue[0])), chunk)
  {
    EmptyQueueHoldsNothing(s.queue);
  }

  lemma FreshDescriptorIf(memory: seq<byte>, offset: nat, element: Positive, len: nat, min: nat)
    requires |memory| == len * element
    ensures 0 < min <= len ==>
              var d := Descriptor([], memory, offset, min * element, element, ByobReader);
              WellShaped(d) && Unsatisfied(d)
  {
    if 0 < min <= len { FreshDescriptor(memory, offset, element, len, min); }
  }

  lemma HasMemory(d: Descriptor)
    requires WellShaped(d)
    ensures d.data + d.rest != []
  {
    assert |d.data + d.rest| == d.Length();
  }

  lemma PrependNothing(r: Progress)
    ensures Prepend([], r) == r
  {
    if r.Done? { assert [] + r.events == r.events; }
  }

  lemma PrependKeepsFailure(events: seq<Event<seq<byte>>>, r: Progress)
    requires !r.Done?
    ensures Prepend(events, r) == r
  {
  }

  lemma PrependTwice(a: seq<Event<seq<byte>>>, b: seq<Event<seq<byte>>>, r: Progress)
    ensures Prepend(a, Prepend(b, r)) == Prepend(a + b, r)
  {
    if r.Done? { assert a + (b + r.events) == a + b + r.events; }
  }

  lemma UnderflowPanics(l: Loop, st: State)
    requires Guard(l) && CopyCount(|Flatten(l.queue)|, l.pending[0]) < 0
    ensures Process(l.queue, l.pending, l.requests, st).Panics?
  {
    hide Flatten, CopyCount;
  }

  lemma LoopIsDone(l: Loop, st: State, settled: seq<Event<seq<byte>>>)
    requires !Guard(l)
    ensures Prepend(settled, Process(l.queue, l.pending, l.requests, st)) ==
            Done(l.queue, l.pending, l.requests, settled)
  {
    hide Flatten;
    assert settled + [] == settled;
  }

  lemma AbsorbMore(queue: seq<seq<byte>>, d: Descriptor, done: nat, bytes: seq<byte>)
    requires NoEmptyChunk(queue) && done + |bytes| <= |Flatten(queue)| && done + |bytes| <= |d.rest|
    requires |bytes| <= |Flatten(DropFirst(queue, done))|
    requires bytes == Flatten(DropFirst(queue, done))[..|bytes|]
    ensures d.Absorb(Flatten(queue)[..done]).Absorb(bytes) == d.Absorb(Flatten(queue)[..done + |bytes|])
    ensures DropFirst(DropFirst(queue, done), |bytes|) == DropFirst(queue, done + |bytes|)
  {
    DropFirstFlattens(queue, done);
    DropFirstTwice(queue, done, |bytes|);
    var flat := Flatten(queue);
    assert flat[..done] + bytes == flat[..done + |bytes|];
    assert d.rest[done..][|bytes|..] == d.rest[done + |bytes|..];
    assert d.data + flat[..done] + bytes == d.data + (flat[..done] + bytes);
  }
}
