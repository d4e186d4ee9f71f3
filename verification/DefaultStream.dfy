/** A ReadableStream with a default controller as a state machine; chunks are of any type. */
module DefaultStream {
  import opened StreamCore
  import opened Wrappers
  import opened PullProtocol

  /**
   History: `accepted` records the chunks that enqueue has taken in, `entered` the chunks that have
   entered the queue, with their sizes, since it was last reset.
   */
  datatype Stream<V> = Stream(
    core: Core<V>,
    pull: Pull,
    closeRequested: bool,
    size: nat,
    mark: HighWaterMark,
    queue: seq<(V, nat)>,
    accepted: seq<V>,
    entered: seq<(V, nat)>)

  datatype Outcome<V> = Outcome(s: Stream<V>, ok: bool)

  function NewStream<V>(mark: HighWaterMark): Stream<V> {
    Stream(NewCore(), Idle, false, 0, mark, [], [], [])
  }

  predicate CanCloseOrEnqueue<V>(s: Stream<V>) {
    s.core.st == Readable && !s.closeRequested
  }

  predicate ShouldCallPull<V>(s: Stream<V>) {
    && CanCloseOrEnqueue(s)
    && s.pull.started
    && ((s.core.kind != NoReader && s.core.requests != []) || Exceeds(s.mark, s.size))
  }

  function PullIfNeeded<V>(s: Stream<V>): Stream<V> {
    s.(pull := Evaluate(s.pull, s.core.st, ShouldCallPull(s)))
  }

  function ResetQueue<V>(s: Stream<V>): Stream<V> {
    s.(queue := [], size := 0, entered := [])
  }

  function ErrorInternal<V>(s: Stream<V>, reason: Reason): Stream<V> {
    if s.core.st == Readable then ResetQueue(s).(core := ErrorCore(s.core, reason)) else s
  }

  function GetReader<V>(s: Stream<V>, kind: ReaderKind): Outcome<V> {
    if s.core.kind != NoReader || kind != DefaultReader then Outcome(s, false)
    else Outcome(s.(core := s.core.(kind := kind)), true)
  }

  function ReleaseLock<V>(s: Stream<V>): Outcome<V> {
    if s.core.kind == NoReader then Outcome(s, false) else Outcome(s.(core := ReleaseCore(s.core)), true)
  }

  function Cancel<V>(s: Stream<V>): Outcome<V> {
    if s.core.kind != NoReader then Outcome(s, false)
    else if s.core.st == Readable then Outcome(ResetQueue(s.(core := CloseCore(s.core))), true)
    else Outcome(s, true)
  }

  /** DefaultReader::read, with Controller::pull; popping a chunk leaves `size` as it is. */
  function Read<V>(s: Stream<V>): Outcome<V> {
    if s.core.kind != DefaultReader then Outcome(s, false)
    else
      var id := s.core.issued;
      var s := s.(core := Issue(s.core));
      match s.core.st
      case Closed => Outcome(s.(core := Settle(s.core, Ended(id, None))), true)
      case Errored => Outcome(s.(core := Settle(s.core, Failed(id, StoredError(s.core)))), true)
      case Readable =>
        if s.queue != [] then
          var chunk := s.queue[0].0;
          var s := s.(queue := s.queue[1..]);
          var s := if s.closeRequested && s.queue == [] then s.(core := CloseCore(s.core)) else PullIfNeeded(s);
          Outcome(s.(core := Settle(s.core, Served(id, chunk))), true)
        else
          Outcome(PullIfNeeded(s.(core := s.core.(requests := s.core.requests + [id]))), true)
  }

  function Close<V>(s: Stream<V>): Outcome<V> {
    if !CanCloseOrEnqueue(s) then Outcome(s, false)
    else Outcome(s.(closeRequested := s.queue == [], core := CloseCore(s.core)), true)
  }

  /** `measured` is what the strategy's `size` answers, None when it throws or answers no valid size. */
  function Enqueue<V>(s: Stream<V>, chunk: V, measured: Option<nat>): Outcome<V> {
    if !CanCloseOrEnqueue(s) then Outcome(s, false)
    else if s.core.kind == DefaultReader && s.core.requests != [] then
      var core := Settle(s.core, Served(s.core.requests[0], chunk)).(requests := s.core.requests[1..]);
      Outcome(s.(core := core, accepted := s.accepted + [chunk]), true)
    else if measured == None then
      Outcome(ErrorInternal(s, FromScript(0)), true)
    else
      Outcome(PullIfNeeded(s.(queue := s.queue + [(chunk, measured.value)], size := s.size + measured.value,
                              accepted := s.accepted + [chunk],
                              entered := s.entered + [(chunk, measured.value)])), true)
  }

  // ---- Runs -------------------------------------------------------------------------------------

  datatype Op<V> =
    | AcquireReader(kind: ReaderKind)
    | Release
    | CancelStream
    | DefaultRead
    | EnqueueChunk(chunk: V, measured: Option<nat>)
    | CloseStream
    | ErrorStream(reason: Reason)
    | StartFulfilled
    | StartRejected(reason: Reason)
    | PullFulfilled
    | PullRejected(reason: Reason)

  predicate Possible<V>(s: Stream<V>, op: Op<V>) {
    match op
    case StartFulfilled => !s.pull.settled
    case StartRejected(_) => !s.pull.settled
    case PullFulfilled => s.pull.outstanding
    case PullRejected(_) => s.pull.outstanding
    case _ => true
  }

  function Step<V>(s: Stream<V>, op: Op<V>): Outcome<V>
    requires Possible(s, op)
  {
    match op
    case AcquireReader(kind) => GetReader(s, kind)
    case Release => ReleaseLock(s)
    case CancelStream => Cancel(s)
    case DefaultRead => Read(s)
    case EnqueueChunk(chunk, measured) => Enqueue(s, chunk, measured)
    case CloseStream => Close(s)
    case ErrorStream(reason) => Outcome(ErrorInternal(s, reason), true)
    case StartFulfilled => Outcome(PullIfNeeded(s.(pull := s.pull.(started := true, settled := true))), true)
    case StartRejected(reason) => Outcome(ErrorInternal(s.(pull := s.pull.(settled := true)), reason), true)
    case PullFulfilled => Outcome(s.(pull := Fulfil(s.pull, s.core.st, ShouldCallPull(s))), true)
    case PullRejected(reason) => Outcome(ErrorInternal(s.(pull := Reject(s.pull)), reason), true)
  }

  /** A reaction whose promise does not exist never fires. */
  function Run<V>(s: Stream<V>, ops: seq<Op<V>>): Stream<V>
    decreases |ops|
  {
    if ops == [] then s
    else if !Possible(s, ops[0]) then Run(s, ops[1..])
    else Run(Step(s, ops[0]).s, ops[1..])
  }

  // ---- What every reachable stream satisfies ----------------------------------------------------

  /** The chunks that answered reads, in the order they did. */
  function ChunksServed<V>(log: seq<Event<V>>): seq<V> {
    if log == [] then []
    else
      var last := log[|log| - 1];
      ChunksServed(log[..|log| - 1]) + (if last.Served? then [last.view] else [])
  }

  function Queued<V>(queue: seq<(V, nat)>): (chunks: seq<V>)
    ensures |chunks| == |queue|
  {
    seq(|queue|, i requires 0 <= i < |queue| => queue[i].0)
  }

  function SizeOf<V>(queue: seq<(V, nat)>): nat {
    if queue == [] then 0 else queue[0].1 + SizeOf(queue[1..])
  }

  ghost predicate Sound<V>(s: Stream<V>) {
    && Lifecycle(s.core)
    && s.core.kind != ByobReader
    && SettlesInOrder(s.core)
    && FollowsProtocol(s.pull)
    && (s.closeRequested ==> s.core.st != Readable)
    && (s.core.st == Errored ==> s.queue == [])
    && (s.queue == [] || s.core.requests == [])
    && SizeOf(s.queue) <= s.size
    && ChunksServed(s.core.log) <= s.accepted
    && (s.core.st == Readable ==> s.accepted == ChunksServed(s.core.log) + Queued(s.queue))
  }

  lemma ServedPush<V>(log: seq<Event<V>>, e: Event<V>)
    ensures ChunksServed(log + [e]) == ChunksServed(log) + (if e.Served? then [e.view] else [])
  {
    assert (log + [e])[..|log|] == log;
  }

  lemma {:induction false} ServedBulk<V>(log: seq<Event<V>>, events: seq<Event<V>>)
    requires forall i :: 0 <= i < |events| ==> !events[i].Served?
    ensures ChunksServed(log + events) == ChunksServed(log)
    decreases |events|
  {
    if events == [] {
      assert log + events == log;
    } else {
      ServedPush(log, events[0]);
      ServedBulk(log + [events[0]], events[1..]);
      assert log + events == (log + [events[0]]) + events[1..];
    }
  }

  lemma BulkKeeps<V>(s: Stream<V>, reason: Reason)
    ensures ChunksServed(CloseCore(s.core).log) == ChunksServed(s.core.log)
    ensures ChunksServed(ErrorCore(s.core, reason).log) == ChunksServed(s.core.log)
    ensures ChunksServed(ReleaseCore(s.core).log) == ChunksServed(s.core.log)
  {
    ServedBulk(s.core.log, EndAll(s.core.requests));
    ServedBulk(s.core.log, FailAll(s.core.requests, reason));
    ServedBulk(s.core.log, FailAll(s.core.requests, ReaderReleased));
  }

  lemma {:induction false} SizePush<V>(queue: seq<(V, nat)>, chunk: V, n: nat)
    ensures SizeOf(queue + [(chunk, n)]) == SizeOf(queue) + n
  {
    if queue == [] {
      assert queue + [(chunk, n)] == [(chunk, n)];
    } else {
      SizePush(queue[1..], chunk, n);
      assert (queue + [(chunk, n)])[1..] == queue[1..] + [(chunk, n)];
    }
  }

  lemma PullIfNeededKeeps<V>(s: Stream<V>)
    requires Sound(s)
    ensures Sound(PullIfNeeded(s))
  {
    EvaluateFollowsProtocol(s.pull, s.core.st, ShouldCallPull(s));
  }

  lemma ErrorKeeps<V>(s: Stream<V>, reason: Reason)
    requires Sound(s)
    ensures Sound(ErrorInternal(s, reason))
    ensures s.core.st == Readable ==> ErrorInternal(s, reason).core.requests == []
  {
    BulkSettlingKeepsTrail(s.core, reason);
    BulkKeeps(s, reason);
  }

  lemma CloseKeeps<V>(s: Stream<V>)
    requires Sound(s)
    ensures Sound(Close(s).s) && Sound(Cancel(s).s) && Sound(ReleaseLock(s).s)
    ensures Close(s).ok ==> Close(s).s.core.requests == []
    ensures ReleaseLock(s).ok ==> ReleaseLock(s).s.core.requests == []
  {
    BulkSettlingKeepsTrail(s.core, ReaderReleased);
    BulkKeeps(s, ReaderReleased);
  }

  /** A read answered at once: with the chunk at the front of the queue, or with none. */
  lemma AnswerKeeps<V>(s: Stream<V>, t: Stream<V>, e: Event<V>)
    requires Sound(s) && s.core.requests == [] && e.id == s.core.issued
    requires t == s.(core := Settle(Issue(s.core), e), queue := t.queue, pull := t.pull)
    requires FollowsProtocol(t.pull)
    requires e.Served? ==>
               s.core.st == Readable && s.queue != [] && e.view == s.queue[0].0 && t.queue == s.queue[1..]
    requires !e.Served? ==> t.queue == s.queue
    ensures Sound(t)
  {
    hide ChunksServed, FollowsProtocol, Ids;
    InOrderIsOnce(s.core);
    assert SettlesInOrder(t.core) by { SettleNow(s.core, e); }
    ServedPush(s.core.log, e);
    if e.Served? {
      assert Queued(s.queue) == [s.queue[0].0] + Queued(s.queue[1..]);
    }
  }

  lemma ReadKeeps<V>(s: Stream<V>)
    requires Sound(s)
    ensures Sound(Read(s).s)
  {
    hide ChunksServed, SettlesInOrder, FollowsProtocol;
    if s.core.kind == DefaultReader {
      var id := s.core.issued;
      var t := Read(s).s;
      if s.core.st == Readable && s.queue == [] {
        assert SettlesInOrder(t.core) by { InOrderIsOnce(s.core); Wait(s.core); }
        var u := s.(core := Issue(s.core).(requests := s.core.requests + [id]));
        EvaluateFollowsProtocol(u.pull, u.core.st, ShouldCallPull(u));
      } else if s.core.st == Readable {
        var u := s.(core := Issue(s.core), queue := s.queue[1..]);
        EvaluateFollowsProtocol(u.pull, u.core.st, ShouldCallPull(u));
        AnswerKeeps(s, t, Served(id, s.queue[0].0));
      } else if s.core.st == Closed {
        AnswerKeeps(s, t, Ended(id, None));
      } else {
        AnswerKeeps(s, t, Failed(id, StoredError(s.core)));
      }
    }
  }

  lemma EnqueueKeeps<V>(s: Stream<V>, chunk: V, measured: Option<nat>)
    requires Sound(s)
    ensures Sound(Enqueue(s, chunk, measured).s)
  {
    hide ChunksServed, FollowsProtocol, Ids;
    if CanCloseOrEnqueue(s) {
      if s.core.requests != [] {
        var e := Served(s.core.requests[0], chunk);
        SettleHeadKeepsTrail(s.core, e);
        ServedPush(s.core.log, e);
        assert Queued(s.queue) == [];
      } else if measured == None {
        ErrorKeeps(s, FromScript(0));
      } else {
        var n := measured.value;
        SizePush(s.queue, chunk, n);
        assert Queued(s.queue + [(chunk, n)]) == Queued(s.queue) + [chunk];
        PullIfNeededKeeps(s.(queue := s.queue + [(chunk, n)], size := s.size + n, accepted := s.accepted + [chunk],
                             entered := s.entered + [(chunk, n)]));
      }
    }
  }

  lemma StepKeepsSound<V>(s: Stream<V>, op: Op<V>)
    requires Sound(s) && Possible(s, op)
    ensures Sound(Step(s, op).s)
  {
    match op
    case AcquireReader(_) => assert Trail(Step(s, op).s.core) == Trail(s.core);
    case Release => CloseKeeps(s);
    case CancelStream => CloseKeeps(s);
    case DefaultRead => ReadKeeps(s);
    case EnqueueChunk(chunk, measured) => EnqueueKeeps(s, chunk, measured);
    case CloseStream => CloseKeeps(s);
    case ErrorStream(reason) => ErrorKeeps(s, reason);
    case StartFulfilled => PullIfNeededKeeps(s.(pull := s.pull.(started := true, settled := true)));
    case StartRejected(reason) => ErrorKeeps(s.(pull := s.pull.(settled := true)), reason);
    case PullFulfilled => FulfilFollowsProtocol(s.pull, s.core.st, ShouldCallPull(s));
    case PullRejected(reason) =>
      RejectFollowsProtocol(s.pull);
      ErrorKeeps(s.(pull := Reject(s.pull)), reason);
  }

  lemma NewIsSound<V>(mark: HighWaterMark)
    ensures Sound(NewStream<V>(mark))
  {
    assert Trail(NewStream<V>(mark).core) == [];
  }

  lemma {:induction false} RunKeepsSound<V>(s: Stream<V>, ops: seq<Op<V>>)
    requires Sound(s)
    ensures Sound(Run(s, ops))
    decreases |ops|
  {
    hide Sound, Step;
    if ops != [] {
      if !Possible(s, ops[0]) {
        RunKeepsSound(s, ops[1..]);
      } else {
        StepKeepsSound(s, ops[0]);
        RunKeepsSound(Step(s, ops[0]).s, ops[1..]);
      }
    }
  }

  // ---- The queue size ----------------------------------------------------------------------------

  /** `size` counts every chunk that has entered the queue since the last reset, popped ones included. */
  ghost predicate Counted<V>(s: Stream<V>) {
    && s.size == SizeOf(s.entered)
    && |s.queue| <= |s.entered| && s.queue == s.entered[|s.entered| - |s.queue|..]
  }

  lemma EnqueueKeepsCounted<V>(s: Stream<V>, chunk: V, measured: Option<nat>)
    requires Counted(s)
    ensures Counted(Enqueue(s, chunk, measured).s)
  {
    hide Evaluate, ShouldCallPull, Settle, ErrorCore;
    if measured.Some? {
      SizePush(s.entered, chunk, measured.value);
    }
  }

  lemma PopKeepsCounted<V>(entered: seq<(V, nat)>, queue: seq<(V, nat)>)
    requires queue != [] && |queue| <= |entered| && queue == entered[|entered| - |queue|..]
    ensures queue[1..] == entered[|entered| - |queue[1..]|..]
  {
  }

  lemma ReadKeepsCounted<V>(s: Stream<V>)
    requires Counted(s)
    ensures Counted(Read(s).s)
  {
    if s.queue != [] { PopKeepsCounted(s.entered, s.queue); }
    ReadPops(s);
    hide SizeOf, Read;
  }

  /** What a read does to the queue. */
  lemma ReadPops<V>(s: Stream<V>)
    ensures var t := Read(s).s;
            && t.size == s.size && t.entered == s.entered
            && (t.queue == s.queue || (s.queue != [] && t.queue == s.queue[1..]))
  {
    hide Evaluate, ShouldCallPull, Settle, CloseCore;
  }

  lemma ResetKeepsCounted<V>(s: Stream<V>, reason: Reason)
    requires Counted(s)
    ensures Counted(ErrorInternal(s, reason)) && Counted(Cancel(s).s)
  {
    hide ErrorCore, CloseCore;
  }

  lemma AlikeCounted<V>(s: Stream<V>, t: Stream<V>)
    requires Counted(s) && t == s.(core := t.core, pull := t.pull, closeRequested := t.closeRequested)
    ensures Counted(t)
  {
    hide SizeOf;
  }

  lemma StepKeepsCounted<V>(s: Stream<V>, op: Op<V>)
    requires Counted(s) && Possible(s, op)
    ensures Counted(Step(s, op).s)
  {
    hide Counted, Evaluate, Fulfil, Reject, ErrorCore, CloseCore, ReleaseCore, Enqueue, Read, Cancel, ErrorInternal;
    match op
    case EnqueueChunk(chunk, measured) => EnqueueKeepsCounted(s, chunk, measured);
    case DefaultRead => ReadKeepsCounted(s);
    case CancelStream => ResetKeepsCounted(s, FromScript(0));
    case ErrorStream(reason) => ResetKeepsCounted(s, reason);
    case StartRejected(reason) =>
      AlikeCounted(s, s.(pull := s.pull.(settled := true)));
      ResetKeepsCounted(s.(pull := s.pull.(settled := true)), reason);
    case PullRejected(reason) =>
      AlikeCounted(s, s.(pull := Reject(s.pull)));
      ResetKeepsCounted(s.(pull := Reject(s.pull)), reason);
    case _ => AlikeCounted(s, Step(s, op).s);
  }

  lemma {:induction false} RunKeepsCounted<V>(s: Stream<V>, ops: seq<Op<V>>)
    requires Counted(s)
    ensures Counted(Run(s, ops))
    decreases |ops|
  {
    hide Counted, Step, Possible;
    if ops != [] {
      if !Possible(s, ops[0]) {
        RunKeepsCounted(s, ops[1..]);
      } else {
        StepKeepsCounted(s, ops[0]);
        RunKeepsCounted(Step(s, ops[0]).s, ops[1..]);
      }
    }
  }

  /** On every run the queue size is the total of all that entered since the last reset, exactly. */
  lemma QueueSizeIsExact<V>(mark: HighWaterMark, ops: seq<Op<V>>)
    ensures var s := Run(NewStream<V>(mark), ops);
            && s.size == SizeOf(s.entered)
            && |s.queue| <= |s.entered| && s.queue == s.entered[|s.entered| - |s.queue|..]
  {
    RunKeepsCounted(NewStream<V>(mark), ops);
  }

  /**
   First in, first out, across releases and new readers: the k-th read answered with a chunk gets
   the k-th chunk accepted; chunks and reads never wait at the same time; reads settle in order.
   */
  lemma FirstInFirstOut<V>(mark: HighWaterMark, ops: seq<Op<V>>)
    ensures var s := Run(NewStream(mark), ops);
            var answers := ChunksServed(s.core.log);
            && |answers| <= |s.accepted|
            && (forall k :: 0 <= k < |answers| ==> answers[k] == s.accepted[k])
            && (s.core.st == Readable ==> s.accepted == answers + Queued(s.queue))
            && (s.queue == [] || s.core.requests == [])
            && SettlesInOrder(s.core)
            && (s.core.st != Readable ==> s.core.requests == [])
  {
    hide Run, NewStream;
    NewIsSound<V>(mark);
    RunKeepsSound(NewStream<V>(mark), ops);
  }

  /** The source is called only when started and readable, one call at a time; lifecycle and sizes. */
  lemma EveryDefaultRun<V>(mark: HighWaterMark, ops: seq<Op<V>>)
    ensures var s := Run(NewStream<V>(mark), ops);
            && OneAtATime(s.pull.trace) && CalledWhenAllowed(s.pull.trace)
            && (s.pull.again ==> s.pull.pulling)
            && (s.core.error.Some? <==> s.core.st == Errored)
            && (s.closeRequested ==> s.core.st != Readable)
            && SizeOf(s.queue) <= s.size
  {
    hide Run, NewStream;
    NewIsSound<V>(mark);
    RunKeepsSound(NewStream<V>(mark), ops);
  }

  lemma FinalRead<V>(s: Stream<V>)
    requires s.core.st != Readable
    ensures var t := Read(s).s;
            && t.core.st == s.core.st && t.core.error == s.core.error && t.accepted == s.accepted && t.pull == s.pull
            && ChunksServed(t.core.log) == ChunksServed(s.core.log)
  {
    ServedPush(s.core.log, Ended(s.core.issued, None));
    ServedPush(s.core.log, Failed(s.core.issued, StoredError(s.core)));
    hide ChunksServed;
    assert ChunksServed(s.core.log) + [] == ChunksServed(s.core.log);
  }

  lemma FinalReaction<V>(s: Stream<V>, op: Op<V>)
    requires FollowsProtocol(s.pull) && s.core.st != Readable && Possible(s, op)
    requires op.StartFulfilled? || op.StartRejected? || op.PullFulfilled? || op.PullRejected?
    ensures Step(s, op).s.core == s.core && Step(s, op).s.accepted == s.accepted
    ensures Calls(Step(s, op).s.pull.trace) == Calls(s.pull.trace)
  {
    if op.PullFulfilled? {
      FulfilFollowsProtocol(s.pull, s.core.st, false);
    } else if op.PullRejected? {
      RejectFollowsProtocol(s.pull);
    }
    hide Calls, OneAtATime, CalledWhenAllowed, WantedSinceCall, InFlight;
  }

  /** A closed or errored stream stays so: nothing is accepted or served, and the source rests. */
  lemma FinalStates<V>(s: Stream<V>, op: Op<V>)
    requires Sound(s) && Possible(s, op) && s.core.st != Readable
    ensures var t := Step(s, op).s;
            && t.core.st == s.core.st && t.core.error == s.core.error && t.accepted == s.accepted
            && ChunksServed(t.core.log) == ChunksServed(s.core.log)
            && Calls(t.pull.trace) == Calls(s.pull.trace)
  {
    assert FollowsProtocol(s.pull);
    hide Sound, FollowsProtocol, Calls, ChunksServed, Read, Evaluate, Fulfil, Reject;
    match op
    case DefaultRead => FinalRead(s);
    case Release => BulkKeeps(s, ReaderReleased);
    case StartFulfilled => FinalReaction(s, op);
    case StartRejected(_) => FinalReaction(s, op);
    case PullFulfilled => FinalReaction(s, op);
    case PullRejected(_) => FinalReaction(s, op);
    case _ =>
  }

  /** So it is for the rest of any run. */
  lemma {:induction false} FinalForever<V>(s: Stream<V>, ops: seq<Op<V>>)
    requires Sound(s) && s.core.st != Readable
    ensures var t := Run(s, ops);
            && t.core.st == s.core.st && t.core.error == s.core.error && t.accepted == s.accepted
            && ChunksServed(t.core.log) == ChunksServed(s.core.log)
            && Calls(t.pull.trace) == Calls(s.pull.trace)
    decreases |ops|
  {
    hide Sound, Step, Possible;
    if ops != [] {
      if !Possible(s, ops[0]) {
        FinalForever(s, ops[1..]);
      } else {
        StepKeepsSound(s, ops[0]);
        FinalStates(s, ops[0]);
        FinalForever(Step(s, ops[0]).s, ops[1..]);
      }
    }
  }
}
