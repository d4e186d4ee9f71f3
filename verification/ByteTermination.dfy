/** Runs on which every call returns: no `unwrap` fails and no loop hangs. */
module ByteTermination {
  import opened Chunks
  import opened StreamCore
  import opened PullProtocol
  import opened PullInto
  import opened ByteStream
  import opened ByteLifecycle
  import opened ByteDelivery
  import opened ByteExact
  import opened ByteRanks
  import opened ByteOutcomes
  import opened ByteRuns

  /** A BYOB read leaves room above its minimum; on plain runs no descriptor has lost its reader. */
  predicate Roomy(d: Descriptor, plain: bool) {
    && (d.kind == ByobReader ==> d.min < d.Length())
    && (plain ==> d.kind != NoReader)
  }

  ghost predicate AllRoomy(pending: seq<Descriptor>, plain: bool) {
    forall i :: 0 <= i < |pending| ==> Roomy(pending[i], plain)
  }

  /** The read's minimum is not its whole view. */
  predicate LeavesRoom(op: Op) {
    op.ByobRead? ==> op.min != op.len
  }

  ghost predicate AllLeaveRoom(ops: seq<Op>) {
    forall i :: 0 <= i < |ops| ==> LeavesRoom(ops[i])
  }

  // ---- What the operations do to the descriptors -------------------------------------------------

  lemma AbsorbKeepsRoomy(d: Descriptor, bytes: seq<byte>, plain: bool)
    requires Roomy(d, plain) && |bytes| <= |d.rest|
    ensures Roomy(d.Absorb(bytes), plain)
  {
  }

  lemma {:induction false} ProcessKeepsRoomy(
      queue: seq<seq<byte>>, pending: seq<Descriptor>, requests: seq<nat>, st: State, plain: bool)
    requires AllRoomy(pending, plain) && Process(queue, pending, requests, st).Done?
    ensures AllRoomy(Process(queue, pending, requests, st).pending, plain)
    decreases |pending|
  {
    hide Flatten, Roomy, Ready, CopyCount, CommitEvent;
    if pending != [] && |Flatten(queue)| > 0 {
      AbsorbKeepsRoomy(pending[0], Flatten(queue)[..CopyCount(|Flatten(queue)|, pending[0])], plain);
      if Ready(|Flatten(queue)|, pending[0]) {
        ProcessKeepsRoomy(QueueAfter(queue, pending[0]), pending[1..], requests[1..], st, plain);
      }
    }
  }

  lemma ProcessingKeepsRoomy(s: Stream, plain: bool)
    requires AllRoomy(s.pending, plain) && ProcessDescriptors(s).Returns?
    ensures AllRoomy(ProcessDescriptors(s).s.pending, plain) && ProcessDescriptors(s).s.auto == s.auto
  {
    hide Process, Roomy;
    ProcessKeepsRoomy(s.queue, s.pending, s.core.requests, s.core.st, plain);
  }

  lemma {:induction false} ServeKeepsRoomy(s: Stream, chunk: seq<byte>, plain: bool)
    requires AllRoomy(s.pending, plain) && Serve(s, chunk).Returns?
    ensures AllRoomy(Serve(s, chunk).s.pending, plain) && Serve(s, chunk).s.auto == s.auto
    decreases |s.core.requests|
  {
    hide Roomy, Evaluate;
    if s.core.requests != [] && s.size != 0 {
      var t := s.(core := s.core.(requests := s.core.requests[1..]),
                  queue := s.queue[1..], size := s.size - |s.queue[0]|);
      ServeKeepsRoomy(SettleWith(PullIfNeeded(t), Served(s.core.requests[0], s.queue[0])), chunk, plain);
    }
  }

  lemma EnqueueKeepsRoomy(s: Stream, chunk: seq<byte>, plain: bool)
    requires AllRoomy(s.pending, plain) && Enqueue(s, chunk).Returns?
    ensures AllRoomy(Enqueue(s, chunk).s.pending, plain) && Enqueue(s, chunk).s.auto == s.auto
  {
    hide Roomy, Evaluate, ProcessDescriptors, Serve;
    if chunk != [] && CanCloseOrEnqueue(s) {
      var t := ShiftDetached(s.(produced := s.produced + chunk));
      match s.core.kind {
        case ByobReader => ProcessingKeepsRoomy(PushChunk(t, chunk), plain);
        case DefaultReader => ServeKeepsRoomy(t, chunk, plain);
        case NoReader =>
      }
    }
  }

  lemma CommitKeepsRoomy(s: Stream, d: Descriptor, plain: bool)
    requires AllRoomy(s.pending, plain) && CommitThenProcess(s, d).Returns?
    ensures AllRoomy(CommitThenProcess(s, d).s.pending, plain) && CommitThenProcess(s, d).s.auto == s.auto
  {
    hide AllRoomy, ProcessDescriptors, CommitEvent;
    var e := CommitEvent(d, s.core.requests[0], s.core.st);
    ProcessingKeepsRoomy(s.(core := Settle(s.core, e).(requests := s.core.requests[1..])), plain);
  }

  lemma PopKeepsRoomy(pending: seq<Descriptor>, plain: bool)
    requires AllRoomy(pending, plain) && pending != []
    ensures AllRoomy(pending[1..], plain)
  {
    hide Roomy;
  }

  lemma RespondReadableKeepsRoomy(s: Stream, plain: bool)
    requires s.pending != [] && AllRoomy(s.pending, plain) && RespondReadable(s).Returns?
    ensures AllRoomy(RespondReadable(s).s.pending, plain) && RespondReadable(s).s.auto == s.auto
  {
    hide AllRoomy, Evaluate, ShouldCallPull, ProcessDescriptors, CommitThenProcess;
    var d := s.pending[0];
    PopKeepsRoomy(s.pending, plain);
    if d.kind == NoReader {
      var t := if d.Filled() > 0 then PushChunk(s, d.data + d.rest) else s;
      if s.core.kind == ByobReader { ProcessingKeepsRoomy(t, plain); }
    } else if d.min <= d.Filled() && s.core.kind == ByobReader {
      var tail := d.Filled() % d.element;
      var popped := s.(pending := s.pending[1..]);
      var t := if tail > 0 then PushChunk(popped, d.data[d.Filled() - tail..]) else popped;
      CommitKeepsRoomy(t, d.(data := d.View()), plain);
    }
  }

  lemma AnswerKeepsRoomy(s: Stream, bytes: seq<byte>, plain: bool)
    requires s.pending != [] && AllRoomy(s.pending, plain) && RespondInternal(s, bytes).Returns?
    ensures AllRoomy(RespondInternal(s, bytes).s.pending, plain) && RespondInternal(s, bytes).s.auto == s.auto
  {
    hide Roomy, Evaluate, RespondReadable, DrainEvents;
    if s.core.st == Readable && bytes != [] && |bytes| <= |s.pending[0].rest| {
      AbsorbKeepsRoomy(s.pending[0], bytes, plain);
      var d := s.pending[0].Absorb(bytes);
      RespondReadableKeepsRoomy(
        s.(slot := Vacant, pending := s.pending[0 := d], produced := s.produced + bytes), plain);
    }
  }

  lemma ReadKeepsRoomy(
      s: Stream, memory: seq<byte>, offset: nat, element: Positive, len: nat, min: nat, plain: bool)
    requires AllRoomy(s.pending, plain) && |memory| == len * element && min != len
    requires ReadByob(s, memory, offset, element, len, min).Returns?
    ensures var t := ReadByob(s, memory, offset, element, len, min).s;
            AllRoomy(t.pending, plain) && t.auto == s.auto
  {
    hide Roomy, Evaluate, Flatten, Ready, CopyCount, QueueAfter;
    if s.core.kind == ByobReader && 0 < min < len {
      var d := Descriptor([], memory, offset, min * element, element, ByobReader);
      FreshIsRoomy(memory, offset, element, len, min, plain);
      if CopyCount(|Flatten(s.queue)|, d) >= 0 {
        AbsorbKeepsRoomy(d, Flatten(s.queue)[..CopyCount(|Flatten(s.queue)|, d)], plain);
      }
    }
  }

  lemma FreshIsRoomy(memory: seq<byte>, offset: nat, element: Positive, len: nat, min: nat, plain: bool)
    requires |memory| == len * element && 0 < min < len
    ensures Roomy(Descriptor([], memory, offset, min * element, element, ByobReader), plain)
  {
    FreshDescriptor(memory, offset, element, len, min);
  }

  lemma DefaultReadKeepsRoomy(s: Stream, plain: bool)
    requires AllRoomy(s.pending, plain) && ReadDefault(s).Returns?
    ensures AllRoomy(ReadDefault(s).s.pending, plain) && ReadDefault(s).s.auto == s.auto
  {
    hide Evaluate, CloseCore, ErrorCore;
  }

  lemma ReleaseKeepsRoomy(s: Stream)
    requires AllRoomy(s.pending, false)
    ensures AllRoomy(ReleaseLock(s).s.pending, false)
  {
  }

  lemma StepKeepsRoomy(s: Stream, op: Op, plain: bool)
    requires AllRoomy(s.pending, plain) && Possible(s, op) && LeavesRoom(op) && Step(s, op).Returns?
    requires plain ==> !op.Release?
    ensures AllRoomy(Step(s, op).s.pending, plain) && Step(s, op).s.auto == s.auto
  {
    hide AllRoomy, Enqueue, RespondInternal, ReadByob, ReadDefault, Evaluate, Fulfil, CloseCore, ErrorCore, ReleaseCore;
    NothingIsRoomy(plain);
    match op
    case EnqueueChunk(chunk) => EnqueueKeepsRoomy(s, chunk, plain);
    case Answer(bytes) =>
      if s.slot == Live && s.pending != [] && s.pending[0].rest != [] {
        AnswerKeepsRoomy(s.(slot := Spent), bytes, plain);
      }
    case AnswerWithView(view, _) =>
      if s.slot == Live && s.pending != [] && RespondInternal(s.(slot := Spent), view).Returns? {
        AnswerKeepsRoomy(s.(slot := Spent), view, plain);
      }
    case ByobRead(memory, offset, element, len, min) => ReadKeepsRoomy(s, memory, offset, element, len, min, plain);
    case DefaultRead => DefaultReadKeepsRoomy(s, plain);
    case Release => ReleaseKeepsRoomy(s);
    case _ =>
  }

  lemma NothingIsRoomy(plain: bool)
    ensures AllRoomy([], plain)
  {
  }

  // ---- Regular runs return -----------------------------------------------------------------------

  lemma RoomyReadsNeverStall(s: Stream, n: nat, requests: nat)
    requires Sound(s) && AllRoomy(s.pending, false) && s.core.st == Readable && s.core.kind == ByobReader
    ensures !Stalls(n, Attached(s.pending), requests)
    ensures s.pending != [] && !Detached(s.pending) ==> !Stalls(n, s.pending[1..], requests)
  {
    hide Base, SettlesInOrder, AllFit, Conserved, WellShaped, Unsatisfied, Matches, Stalls;
    var attached := Attached(s.pending);
    assert forall i :: 0 <= i < |attached| ==> attached[i] in s.pending && attached[i].kind == ByobReader;
    RoomNeverStalls(n, attached, requests);
    if attached != [] { RoomNeverStalls(n, attached[1..], requests); }
  }

  /** In lock-step with its requests a BYOB reader's line is never overrun. */
  lemma SoundReadsNeverOverrun(s: Stream, n: nat)
    requires Sound(s) && s.core.st == Readable && s.core.kind == ByobReader
    ensures !Overruns(n, Attached(s.pending), |s.core.requests|)
    ensures s.pending != [] && !Detached(s.pending) ==>
              s.core.requests != [] && !Overruns(n, s.pending[1..], |s.core.requests| - 1)
  {
    hide Sound, Overruns;
    SoundIsRanked(s);
    EnoughRequests(n, Attached(s.pending), |s.core.requests|);
    if s.pending != [] && !Detached(s.pending) {
      EnoughRequests(n, s.pending[1..], |s.core.requests| - 1);
    }
  }

  lemma RegularAnswerReturns(s: Stream, bytes: seq<byte>)
    requires Sound(s) && AllRoomy(s.pending, false) && RegularAnswer(s) && s.pending != []
    ensures !AnswerPanics(s, |bytes|) && !AnswerHangs(s, |bytes|)
  {
    hide Sound, AllRoomy, Stalls, Overruns;
    if s.core.st == Readable && s.core.kind == ByobReader {
      var n := Queued(s) + (s.pending[0].Filled() + |bytes|) % s.pending[0].element;
      SoundReadsNeverOverrun(s, n);
      RoomyReadsNeverStall(s, n, |s.core.requests| - 1);
    }
  }

  lemma RegularEnqueueReturns(s: Stream, chunk: nat)
    requires Sound(s) && AllRoomy(s.pending, false)
    ensures !EnqueuePanics(s, chunk) && !EnqueueHangs(s, chunk)
  {
    hide Sound, AllRoomy, Stalls, Overruns, Requeued, Queued, Attached;
    if s.core.st == Readable && s.core.kind == ByobReader {
      var n := Queued(s) + Requeued(s) + chunk;
      SoundReadsNeverOverrun(s, n);
      RoomyReadsNeverStall(s, n, |s.core.requests|);
    }
  }

  lemma RegularStepReturns(s: Stream, op: Op)
    requires Sound(s) && AllRoomy(s.pending, false) && Possible(s, op) && Regular(s, op)
    ensures Step(s, op).Returns?
  {
    assert Base(s);
    hide Sound, Base, Ranked, Step, AllRoomy, AnswerPanics, AnswerHangs, EnqueuePanics, EnqueueHangs, RegularAnswer,
      Accepted, AcceptedView;
    SoundIsRanked(s);
    StepOutcome(s, op);
    AcceptedAnswers(s);
    match op
    case EnqueueChunk(chunk) => RegularEnqueueReturns(s, |chunk|);
    case Answer(bytes) => if s.pending != [] { RegularAnswerReturns(s, bytes); }
    case AnswerWithView(view, _) => if s.pending != [] { RegularAnswerReturns(s, view); }
    case _ =>
  }

  lemma AcceptedAnswers(s: Stream)
    ensures forall bytes :: Accepted(s, bytes) ==> s.pending != []
    ensures forall view, at :: AcceptedView(s, view, at) ==> s.pending != []
  {
  }


  lemma {:induction false} RegularRunReturnsFrom(s: Stream, ops: seq<Op>)
    requires Sound(s) && AllRoomy(s.pending, false) && AllRegular(s, ops) && AllLeaveRoom(ops)
    ensures Run(s, ops).Returns?
    decreases |ops|
  {
    hide Sound, Step, Possible, Regular, AllRoomy, LeavesRoom;
    if ops != [] {
      if !Possible(s, ops[0]) {
        RegularRunReturnsFrom(s, ops[1..]);
      } else {
        assert LeavesRoom(ops[0]);
        RegularStepReturns(s, ops[0]);
        StepKeepsSound(s, ops[0]);
        StepKeepsRoomy(s, ops[0], false);
        RegularRunReturnsFrom(Step(s, ops[0]).s, ops[1..]);
      }
    }
  }

  /**
   On a regular run, with releases and with auto-allocation, every call returns if every BYOB read's
   minimum is below its view.
   */
  lemma RegularRunReturns(mark: HighWaterMark, auto: nat, ops: seq<Op>)
    requires AllRegular(NewStream(mark, auto), ops) && AllLeaveRoom(ops)
    ensures Run(NewStream(mark, auto), ops).Returns?
  {
    hide Sound, Run, AllRegular, AllLeaveRoom;
    NewStreamIsSound(mark, auto);
    NothingIsRoomy(false);
    RegularRunReturnsFrom(NewStream(mark, auto), ops);
  }

  // ---- Conditions on the calls alone -------------------------------------------------------------

  predicate Plain(op: Op) {
    LeavesRoom(op) && !op.Release?
  }

  ghost predicate AllPlain(ops: seq<Op>) {
    forall i :: 0 <= i < |ops| ==> Plain(ops[i])
  }

  lemma PlainIsRegular(s: Stream, op: Op)
    requires Sound(s) && AllRoomy(s.pending, true) && s.auto == 0 && Plain(op)
    ensures Regular(s, op)
  {
    hide FollowsProtocol, SettlesInOrder, SettlesOnce, AllFit, Conserved, Flatten, WellShaped, Unsatisfied, Matches;
    if s.pending != [] {
      assert Roomy(s.pending[0], true);
      assert Attached(s.pending) == s.pending && s.pending[0].kind == s.core.kind;
    }
  }

  lemma {:induction false} PlainRunIsRegular(s: Stream, ops: seq<Op>)
    requires Sound(s) && AllRoomy(s.pending, true) && s.auto == 0 && AllPlain(ops)
    ensures AllRegular(s, ops)
    decreases |ops|
  {
    hide Sound, Step, Possible, Regular, AllRoomy, LeavesRoom;
    if ops != [] {
      if !Possible(s, ops[0]) {
        PlainRunIsRegular(s, ops[1..]);
      } else {
        assert Plain(ops[0]);
        PlainIsRegular(s, ops[0]);
        if Step(s, ops[0]).Returns? {
          StepKeepsSound(s, ops[0]);
          StepKeepsRoomy(s, ops[0], true);
          PlainRunIsRegular(Step(s, ops[0]).s, ops[1..]);
        }
      }
    }
  }

  /**
   Told from the calls alone, for a stream without auto-allocation: if no reader is released and
   every BYOB read's minimum is below its view, the run is regular and every call returns.
   */
  lemma PlainRun(mark: HighWaterMark, ops: seq<Op>)
    requires AllPlain(ops)
    ensures Run(NewStream(mark, 0), ops).Returns? && AllRegular(NewStream(mark, 0), ops)
  {
    hide Sound, Run, AllRegular, LeavesRoom;
    NewStreamIsSound(mark, 0);
    NothingIsRoomy(true);
    PlainRunIsRegular(NewStream(mark, 0), ops);
    assert AllLeaveRoom(ops) by {
      forall i | 0 <= i < |ops| ensures LeavesRoom(ops[i]) { assert Plain(ops[i]); }
    }
    RegularRunReturns(mark, 0, ops);
  }
}
