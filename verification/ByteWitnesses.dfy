/** Runs of a new byte stream that reach the states in which the exact conditions fail. */
module ByteWitnesses {
  import opened Chunks
  import opened StreamCore
  import opened Wrappers
  import opened PullProtocol
  import opened PullInto
  import opened ByteStream
  import opened ByteLifecycle
  import opened ByteDelivery
  import opened ByteExact
  import opened ByteAnswers
  import opened ByteRanks
  import opened ByteOrder
  import opened ByteFits
  import opened ByteOutcomes
  import opened ByteRuns

  /** One more step at the end of a run. */
  lemma {:induction false} RunExtends(s: Stream, ops: seq<Op>, op: Op)
    requires Run(s, ops).Returns? && Possible(Run(s, ops).s, op)
    ensures var r := Step(Run(s, ops).s, op);
            Run(s, ops + [op]) == if r.Returns? then Returns(r.s, true) else r
    decreases |ops|
  {
    hide Possible, Step;
    if ops == [] {
      assert [] + [op] == [op] && [op][1..] == [];
    } else {
      assert (ops + [op])[0] == ops[0] && (ops + [op])[1..] == ops[1..] + [op];
      if Possible(s, ops[0]) {
        RunExtends(Step(s, ops[0]).s, ops[1..], op);
      } else {
        RunExtends(s, ops[1..], op);
      }
    }
  }

  /** `op` takes the state that `ops` reach from a new stream to `t`. */
  lemma Extend(ops: seq<Op>, s: Stream, op: Op, t: Stream)
    requires Run(New(), ops) == Returns(s, true) && Possible(s, op)
    requires Step(s, op).Returns? && Step(s, op).s == t
    ensures Run(New(), ops + [op]) == Returns(t, true)
  {
    hide Run, Possible, Step, New;
    RunExtends(New(), ops, op);
  }

  function New(): Stream {
    NewStream(Finite(0.0), 0)
  }

  // ---- The states --------------------------------------------------------------------------------

  const ACQUIRE: Op := AcquireReader(ByobReader)

  /** A read of four single bytes with the given minimum. */
  function ReadFour(min: nat): Op {
    ByobRead([0, 0, 0, 0], 0, 1, 4, min)
  }

  function FourBytes(data: seq<byte>, min: nat, kind: ReaderKind): Descriptor
    requires |data| <= 4
  {
    Descriptor(data, seq(4 - |data|, _ => 0), 0, min, 1, kind)
  }

  /** A reader of four bytes waits, and the source has produced what its descriptor holds. */
  function Waiting(data: seq<byte>, min: nat, slot: Slot): Stream
    requires |data| <= 4
  {
    New().(core := Core(Readable, None, ByobReader, [0], 1, []), slot := slot,
           pending := [FourBytes(data, min, ByobReader)], asks := [ByobAsk(1, min, 4)], produced := data)
  }

  /** The reader has been released: the descriptor is detached. */
  function Released(data: seq<byte>, min: nat, slot: Slot, kind: ReaderKind): Stream
    requires |data| <= 4
  {
    Waiting(data, min, slot).(core := Core(Readable, None, kind, [], 1, [Failed(0, ReaderReleased)]),
                              pending := [FourBytes(data, min, NoReader)])
  }

  function ReadOps(min: nat): seq<Op> {
    [] + [ACQUIRE] + [ReadFour(min)]
  }

  lemma ReachWaiting(min: nat)
    requires 0 < min <= 4
    ensures Run(New(), ReadOps(min)) == Returns(Waiting([], min, Vacant), true)
  {
    hide Run;
    RunNothing();
    var locked := New().(core := New().core.(kind := ByobReader));
    Extend([], New(), ACQUIRE, locked);
    assert [0, 0, 0, 0] == seq(4, _ => 0 as byte);
    assert Step(locked, ReadFour(min)).s.core == Waiting([], min, Vacant).core;
    Extend([] + [ACQUIRE], locked, ReadFour(min), Waiting([], min, Vacant));
  }

  lemma RunNothing()
    ensures Run(New(), []) == Returns(New(), true)
  {
  }

  lemma TakeRequest(data: seq<byte>, min: nat)
    requires |data| <= 4
    ensures Step(Waiting(data, min, Vacant), ByobRequest) == Returns(Waiting(data, min, Live), true)
  {
  }

  lemma ReleaseWaiting(data: seq<byte>, min: nat, slot: Slot)
    requires |data| <= 4
    ensures Step(Waiting(data, min, slot), Release) == Returns(Released(data, min, slot, NoReader), true)
  {
    var failed: seq<Event<seq<byte>>> := [Failed(0, ReaderReleased)];
    assert FailAll([0], ReaderReleased) == failed && [] + failed == failed;
  }

  /** One byte arrives for a read that asks for three. */
  lemma ReachPartFilled()
    ensures Run(New(), ReadOps(3) + [EnqueueChunk([7])]) == Returns(Waiting([7], 3, Vacant), true)
  {
    hide Run;
    ReachWaiting(3);
    PartFill();
    Extend(ReadOps(3), Waiting([], 3, Vacant), EnqueueChunk([7]), Waiting([7], 3, Vacant));
  }

  lemma PartFill()
    ensures Step(Waiting([], 3, Vacant), EnqueueChunk([7])) == Returns(Waiting([7], 3, Vacant), true)
  {
    hide Process, Flatten;
    var s := Waiting([], 3, Vacant);
    var chunk: seq<byte> := [7];
    ProcessOneByte();
    FlattenOfNone<byte>();
    FlattenPush([], chunk);
    assert [] + [chunk] == [chunk] && [] + chunk == chunk;
    var t := Waiting([7], 3, Vacant);
    var none: seq<Event<seq<byte>>> := [];
    assert s.core.log + none == none;
    var pushed := PushChunk(s.(produced := chunk), chunk);
    assert ProcessDescriptors(pushed) == Returns(t, true);
    assert PullIfNeeded(t) == t;
  }

  lemma ProcessOneByte()
    ensures Process([[7]], [FourBytes([], 3, ByobReader)], [0], Readable)
            == Done([], [FourBytes([7], 3, ByobReader)], [0], [])
  {
    var d, e := FourBytes([], 3, ByobReader), FourBytes([7], 3, ByobReader);
    var chunk: seq<byte> := [7];
    FlattenOfNone<byte>();
    assert Flatten([chunk]) == chunk + Flatten<byte>([]) == chunk;
    assert !Ready(1, d) && CopyCount(1, d) == 1;
    assert chunk[..1] == chunk && d.Absorb(chunk) == e;
    assert FilledFrom([chunk], d) == e;
    assert [chunk][1..] == [] && DropFirst([chunk], 1) == DropFirst([], 0) == [];
    assert [e] + [d][1..] == [e];
  }

  // ---- A chunk for a detached, partly filled read ------------------------------------------------

  /** The chunk puts the read's whole memory back: five bytes are accounted for where two were produced. */
  lemma EnqueueCanOvercopy()
    ensures var ops := ReadOps(3) + [EnqueueChunk([7])] + [Release] + [EnqueueChunk([8])];
            var r := Run(New(), ops);
            && r.Returns? && !Conserved(r.s)
            && |r.s.produced| == 2 && |Accounted(r.s)| == 5
  {
    hide Run;
    var s := Released([7], 3, Vacant, NoReader);
    ReachPartFilled();
    ReleaseWaiting([7], 3, Vacant);
    Extend(ReadOps(3) + [EnqueueChunk([7])], Waiting([7], 3, Vacant), Release, s);
    Overcopy(s);
    Extend(ReadOps(3) + [EnqueueChunk([7])] + [Release], s, EnqueueChunk([8]), Step(s, EnqueueChunk([8])).s);
  }

  lemma Overcopy(s: Stream)
    requires s == Released([7], 3, Vacant, NoReader)
    ensures var r := Step(s, EnqueueChunk([8]));
            r.Returns? && !Conserved(r.s) && |r.s.produced| == 2 && |Accounted(r.s)| == 5
  {
    var memory: seq<byte> := [7] + seq(3, _ => 0);
    var chunk: seq<byte> := [8];
    FlattenOfNone<byte>();
    FlattenPush([], memory);
    FlattenPush([memory], chunk);
    var t := Step(s, EnqueueChunk(chunk)).s;
    assert [] + [memory] == [memory];
    assert t.queue == [memory] + [chunk];
    assert t.core.log[1..] == [] && Delivered(t.core.log) == [];
    assert Accounted(t) == memory + chunk;
  }

  // ---- An answer to a detached read --------------------------------------------------------------

  /** One byte is answered: the read still holds it, and its whole memory is queued as well. */
  lemma AnswerCanOvercopy()
    ensures var ops := ReadOps(1) + [ByobRequest] + [Release] + [Answer([1])];
            var r := Run(New(), ops);
            r.Returns? && !Conserved(r.s) && |r.s.produced| == 1 && |Accounted(r.s)| == 5
  {
    hide Run;
    var s := Released([], 1, Live, NoReader);
    ReachReleased();
    AnswerDetached(s);
    Extend(ReadOps(1) + [ByobRequest] + [Release], s, Answer([1]), Step(s, Answer([1])).s);
  }

  lemma ReachReleased()
    ensures Run(New(), ReadOps(1) + [ByobRequest] + [Release]) == Returns(Released([], 1, Live, NoReader), true)
  {
    hide Run, Step;
    ReachWaiting(1);
    TakeRequest([], 1);
    Extend(ReadOps(1), Waiting([], 1, Vacant), ByobRequest, Waiting([], 1, Live));
    ReleaseWaiting([], 1, Live);
    Extend(ReadOps(1) + [ByobRequest], Waiting([], 1, Live), Release, Released([], 1, Live, NoReader));
  }

  lemma AnswerDetached(s: Stream)
    requires s == Released([], 1, Live, NoReader)
    ensures var r := Step(s, Answer([1]));
            r.Returns? && !Conserved(r.s) && |r.s.produced| == 1 && |Accounted(r.s)| == 5
  {
    var d := s.pending[0].Absorb([1]);
    FlattenOfNone<byte>();
    FlattenPush([], d.data + d.rest);
    var t := Step(s, Answer([1])).s;
    assert [] + [d.data + d.rest] == [d.data + d.rest] && [] + [1 as byte] == [1];
    assert d.data == [1] && t.pending == [d] && t.queue == [d.data + d.rest];
    assert t.core.log[1..] == [] && Delivered(t.core.log) == [];
    assert Accounted(t) == [1] + (d.data + d.rest);
  }

  // ---- A closed stream whose reader has gone -----------------------------------------------------

  /** The byte that a closed stream's detached read holds is thrown away by the answer. */
  lemma ClosedAnswerCanLose()
    ensures var ops := ReadOps(3) + [EnqueueChunk([7])] + [ByobRequest] + [Release] + [CloseStream] + [Answer([])];
            var r := Run(New(), ops);
            r.Returns? && !Conserved(r.s) && |r.s.produced| == 1 && Accounted(r.s) == []
  {
    hide Run, Step;
    var ops := ReadOps(3) + [EnqueueChunk([7])];
    ReachPartFilled();
    TakeRequest([7], 3);
    Extend(ops, Waiting([7], 3, Vacant), ByobRequest, Waiting([7], 3, Live));
    ReleaseWaiting([7], 3, Live);
    var s := Released([7], 3, Live, NoReader);
    Extend(ops + [ByobRequest], Waiting([7], 3, Live), Release, s);
    LoseOnClose(s);
    var t := Step(s, CloseStream).s;
    Extend(ops + [ByobRequest] + [Release], s, CloseStream, t);
    Extend(ops + [ByobRequest] + [Release] + [CloseStream], t, Answer([]), Step(t, Answer([])).s);
  }

  lemma LoseOnClose(s: Stream)
    requires s == Released([7], 3, Live, NoReader)
    ensures Step(s, CloseStream).Returns?
    ensures var r := Step(Step(s, CloseStream).s, Answer([]));
            r.Returns? && !Conserved(r.s) && |r.s.produced| == 1 && Accounted(r.s) == []
  {
    FlattenOfNone<byte>();
    var t := Step(s, CloseStream).s;
    assert t.core.st == Closed && t.pending == s.pending && t.slot == Live;
    var u := Step(t, Answer([])).s;
    assert u.pending == [] && u.core.log == s.core.log && u.core.log[1..] == [];
    assert Delivered(u.core.log) == [];
  }

  // ---- A read that nothing settles ---------------------------------------------------------------

  /** A second read, made after the stream was closed with the first still pending, is on no queue. */
  lemma ReadCanBeForgotten()
    ensures var ops := ReadOps(1) + [CloseStream] + [ReadFour(1)];
            var r := Run(New(), ops);
            r.Returns? && r.s.core.issued == 2 && 1 !in Trail(r.s.core) && |r.s.pending| == 2
  {
    hide Run;
    ReachWaiting(1);
    var s := Waiting([], 1, Vacant);
    var t := s.(core := s.core.(st := Closed));
    assert Step(s, CloseStream).s == t;
    Extend(ReadOps(1), s, CloseStream, t);
    var u := Step(t, ReadFour(1)).s;
    Extend(ReadOps(1) + [CloseStream], t, ReadFour(1), u);
    assert u.core.requests == [0] && u.core.log == [] && Trail(u.core) == [0];
  }

  // ---- A loop that never exits, and an unwrap that fails ------------------------------------------

  /** A read whose minimum is its whole view, then one byte too many: the loop never exits. */
  lemma FullMinimumCanHang()
    ensures Run(New(), ReadOps(4) + [EnqueueChunk([5, 6, 7, 8, 9])]).Hang?
  {
    hide Run;
    ReachWaiting(4);
    var chunk: seq<byte> := [5, 6, 7, 8, 9];
    Overfill(chunk);
    RunExtends(New(), ReadOps(4), EnqueueChunk(chunk));
  }

  lemma Overfill(chunk: seq<byte>)
    requires |chunk| == 5
    ensures Step(Waiting([], 4, Vacant), EnqueueChunk(chunk)).Hang?
  {
    var d := FourBytes([], 4, ByobReader);
    FlattenPush([], chunk);
    FlattenOfNone<byte>();
    assert [] + [chunk] == [chunk];
    assert !Ready(5, d) && CopyCount(5, d) == 4;
    DropFirstFlattens([chunk], 4);
    assert Process([chunk], [d], [0], Readable).Spins?;
  }

  /** A detached read is answered under a new BYOB reader, whose request queue is empty. */
  lemma ReleasedReadCanPanic()
    ensures Run(New(), ReadOps(1) + [ByobRequest] + [Release] + [ACQUIRE] + [Answer([1])]).Panic?
  {
    hide Run;
    ReachReleased();
    var ops := ReadOps(1) + [ByobRequest] + [Release];
    var s, t := Released([], 1, Live, NoReader), Released([], 1, Live, ByobReader);
    assert Step(s, ACQUIRE).s == t;
    Extend(ops, s, ACQUIRE, t);
    PanicsWithoutRequests(t);
    RunExtends(New(), ops + [ACQUIRE], Answer([1]));
  }

  lemma PanicsWithoutRequests(s: Stream)
    requires s == Released([], 1, Live, ByobReader)
    ensures Step(s, Answer([1])).Panic?
  {
    var d := s.pending[0].Absorb([1]);
    var chunk := d.data + d.rest;
    FlattenPush([], chunk);
    FlattenOfNone<byte>();
    assert [] + [chunk] == [chunk];
    assert MaxAligned(4, d) == 4 && Ready(4, d) && CopyCount(4, d) == 3;
    assert Process([chunk], [d], [], Readable).Panics?;
    assert s.pending[0 := d] == [d];
  }

  /** Every state that a run reaches has the invariants that the exact conditions ask for. */
  lemma ReachedIsRanked(ops: seq<Op>, s: Stream)
    requires Run(New(), ops) == Returns(s, true)
    ensures Base(s) && Ranked(s)
  {
    hide Run, Base, Ranked;
    NewStreamIsBase(Finite(0.0), 0);
    NewStreamIsRanked(Finite(0.0), 0);
    EveryRunKeepsRanked(New(), ops);
  }

  // ---- A detached read answered in front of others -----------------------------------------------

  /** A detached read of four bytes, behind which reads of another BYOB reader wait. */
  function Behind(attached: seq<Descriptor>, requests: seq<nat>, asks: seq<Ask>): Stream {
    var s := Released([], 1, Live, ByobReader);
    s.(pending := s.pending + attached, asks := s.asks + asks,
       core := s.core.(requests := requests, issued := 1 + |requests|))
  }

  const OLD_ANSWER := ReadOps(1) + [ByobRequest] + [Release]

  lemma ReachBehind()
    ensures Run(New(), OLD_ANSWER + [ACQUIRE]) == Returns(Behind([], [], []), true)
  {
    hide Run;
    ReachReleased();
    var s := Released([], 1, Live, NoReader);
    assert Step(s, ACQUIRE).s == Behind([], [], []);
    Extend(OLD_ANSWER, s, ACQUIRE, Behind([], [], []));
  }

  const ONE_BYTE := Descriptor([], [0], 0, 1, 1, ByobReader)

  /** A read of one byte is given four, those of the read before it. */
  lemma ReadCanGetAnothersView()
    ensures var ops := OLD_ANSWER + [ACQUIRE] + [ByobRead([0], 0, 1, 1, 1)] + [Answer([1])];
            var r := Run(New(), ops);
            && r.Returns? && |r.s.asks| == 2 && r.s.asks[1] == ByobAsk(1, 1, 1) && !AllFit(r.s.core.log, r.s.asks)
            && |r.s.core.log| > 1 && r.s.core.log[1].Served? && r.s.core.log[1].id == 1 && |r.s.core.log[1].view| == 4
  {
    hide Run;
    ReachBehind();
    var s, t := Behind([], [], []), Behind([ONE_BYTE], [1], [ByobAsk(1, 1, 1)]);
    var ops := OLD_ANSWER + [ACQUIRE];
    assert Step(s, ByobRead([0], 0, 1, 1, 1)).s == t;
    Extend(ops, s, ByobRead([0], 0, 1, 1, 1), t);
    ReachedIsRanked(ops + [ByobRead([0], 0, 1, 1, 1)], t);
    FourForOne(t);
    Extend(ops + [ByobRead([0], 0, 1, 1, 1)], t, Answer([1]), Step(t, Answer([1])).s);
  }

  lemma FourForOne(s: Stream)
    requires s == Behind([ONE_BYTE], [1], [ByobAsk(1, 1, 1)]) && Base(s) && Ranked(s)
    ensures var r := Step(s, Answer([1]));
            && r.Returns? && r.s.asks == s.asks
            && |r.s.core.log| > 1 && r.s.core.log[1].Served? && r.s.core.log[1].id == 1 && |r.s.core.log[1].view| == 4
  {
    hide Base, Ranked, RespondInternal, Flatten;
    FlattenOfNone<byte>();
    SpentIsRanked(s);
    assert s.pending[0].Length() == 4 && s.pending[1..] == [ONE_BYTE];
    StepOutcome(s, Answer([1]));
    AnotherReadsView(s.(slot := Spent), [1]);
    AnswerKeepsAsks(s.(slot := Spent), [1]);
  }

  lemma AnswerKeepsAsks(s: Stream, bytes: seq<byte>)
    requires s.pending != [] && RespondInternal(s, bytes).Returns?
    ensures RespondInternal(s, bytes).s.asks == s.asks
  {
    hide Process, Evaluate, DrainEvents;
  }

  // ---- One descriptor too many -------------------------------------------------------------------

  /**
   The answer to the detached read settles the first of two reads that wait behind it, so that the
   chunk that comes next makes both their descriptors ready, with one request left.
   */
  lemma EnqueueCanPanic(chunk: seq<byte>)
    requires |chunk| == 6
    ensures Run(New(), OLD_ANSWER + [ACQUIRE] + [ReadFour(1)] + [ReadFour(1)] + [Answer([1])] + [EnqueueChunk(chunk)])
            == Panic
  {
    ReachBehind();
    var four, ask := FourBytes([], 1, ByobReader), ByobAsk(1, 1, 4);
    var s, t, u := Behind([], [], []), Behind([four], [1], [ask]), Behind([four, four], [1, 2], [ask, ask]);
    ReadBehind([], [], []);
    ReadBehind([four], [1], [ask]);
    assert [] + [four] == [four] && [] + [ask] == [ask] && [] + [1 as nat] == [1];
    assert [four] + [four] == [four, four] && [ask] + [ask] == [ask, ask] && [1] + [2 as nat] == [1, 2];
    OneReadSettled(u);
    var v := Step(u, Answer([1])).s;
    hide Run, Step, Base, Ranked, New, Behind;
    var ops := OLD_ANSWER + [ACQUIRE];
    Extend(ops, s, ReadFour(1), t);
    Extend(ops + [ReadFour(1)], t, ReadFour(1), u);
    Extend(ops + [ReadFour(1)] + [ReadFour(1)], u, Answer([1]), v);
    ReachedIsRanked(ops + [ReadFour(1)] + [ReadFour(1)] + [Answer([1])], v);
    TwoReadsReady(v, chunk);
    RunExtends(New(), ops + [ReadFour(1)] + [ReadFour(1)] + [Answer([1])], EnqueueChunk(chunk));
  }

  lemma ReadBehind(attached: seq<Descriptor>, requests: seq<nat>, asks: seq<Ask>)
    ensures Possible(Behind(attached, requests, asks), ReadFour(1))
    ensures Step(Behind(attached, requests, asks), ReadFour(1)) ==
            Returns(Behind(attached + [FourBytes([], 1, ByobReader)], requests + [1 + |requests|],
                           asks + [ByobAsk(1, 1, 4)]), true)
  {
    assert [0, 0, 0, 0] == seq(4, _ => 0 as byte);
    var s := Behind(attached, requests, asks);
    assert s.pending + [FourBytes([], 1, ByobReader)]
        == Released([], 1, Live, ByobReader).pending + (attached + [FourBytes([], 1, ByobReader)]);
    assert s.asks + [ByobAsk(1, 1, 4)] == Released([], 1, Live, ByobReader).asks + (asks + [ByobAsk(1, 1, 4)]);
  }


  lemma OneReadSettled(s: Stream)
    requires var four, ask := FourBytes([], 1, ByobReader), ByobAsk(1, 1, 4);
             s == Behind([four, four], [1, 2], [ask, ask])
    ensures var r := Step(s, Answer([1]));
            && r.Returns? && r.s.core.requests == [2] && r.s.core.st == Readable && r.s.core.kind == ByobReader
            && r.s.queue == [] && !r.s.closeRequested
            && |r.s.pending| == 2 && |r.s.pending[0].data| == 1 && |r.s.pending[0].rest| == 3
            && r.s.pending[0].kind == ByobReader && r.s.pending[0].min == 1 && r.s.pending[0].element == 1
            && r.s.pending[1] == FourBytes([], 1, ByobReader)
  {
    hide Process, Flatten, QueueAfter, FilledFrom, CopyCount, Ready;
    var d, four := s.pending[0].Absorb([1]), FourBytes([], 1, ByobReader);
    var chunk := d.data + d.rest;
    FlattenOfNone<byte>();
    DetachedGoesFirst([], d, [four, four], [1, 2]);
    OwnMemoryFills(4, d);
    var left := QueueAfter([] + [chunk], d);
    OneByteStays(left);
    assert [1, 2][1..] == [2 as nat] && s.pending[0 := d] == [d] + [four, four];
    var pushed := PushChunk(Written(s, [1]), chunk);
    assert ProcessDescriptors(pushed).Returns?;
  }

  lemma OneByteStays(queue: seq<seq<byte>>)
    requires NoEmptyChunk(queue) && |Flatten(queue)| == 1
    ensures var four := FourBytes([], 1, ByobReader);
            && CopyCount(1, four) == 1 && |FilledFrom(queue, four).data| == 1 && |FilledFrom(queue, four).rest| == 3
            && FilledFrom(queue, four)
               == four.(data := FilledFrom(queue, four).data, rest := FilledFrom(queue, four).rest)
            && Process(queue, [four, four], [2], Readable) == Done([], [FilledFrom(queue, four), four], [2], [])
  {
    hide Flatten, NoEmptyChunk, DropFirst;
    var four := FourBytes([], 1, ByobReader);
    assert !Ready(1, four) && CopyCount(1, four) == 1;
    FillMovesPrefix(queue, four);
    FlattenOfNone<byte>();
    assert [FilledFrom(queue, four)] + [four, four][1..] == [FilledFrom(queue, four), four];
  }

  lemma TwoReadsReady(s: Stream, chunk: seq<byte>)
    requires Base(s) && Ranked(s) && |chunk| == 6
    requires s.core.requests == [2] && s.core.st == Readable && s.core.kind == ByobReader && s.queue == []
    requires !s.closeRequested
    requires && |s.pending| == 2 && |s.pending[0].data| == 1 && |s.pending[0].rest| == 3
             && s.pending[0].kind == ByobReader && s.pending[0].min == 1 && s.pending[0].element == 1
             && s.pending[1] == FourBytes([], 1, ByobReader)
    ensures Step(s, EnqueueChunk(chunk)).Panic?
  {
    hide Base, Ranked;
    FlattenOfNone<byte>();
    StepOutcome(s, EnqueueChunk(chunk));
    assert Attached(s.pending) == s.pending;
    assert Ready(6, s.pending[0]) && CopyCount(6, s.pending[0]) == 3 && Ready(3, s.pending[1]);
    assert Overruns(3, s.pending[1..], 0);
    assert Overruns(6, s.pending, 1);
  }

  // ---- A read that overtakes another -------------------------------------------------------------

  /** The memory of a detached read is queued while a default read waits, and the next one takes it. */
  lemma ReadCanOvertake()
    ensures var ops := OLD_ANSWER + [AcquireReader(DefaultReader)] + [DefaultRead] + [Answer([1])] + [DefaultRead];
            var r := Run(New(), ops);
            && r.Returns? && !SettlesInOrder(r.s.core)
            && r.s.core.requests == [1] && Ids(r.s.core.log) == [0, 2]
  {
    ReachReleased();
    var s, t := Released([], 1, Live, NoReader), Released([], 1, Live, DefaultReader);
    assert Step(s, AcquireReader(DefaultReader)).s == t;
    ReadWaits(t);
    var u := Step(t, DefaultRead).s;
    MemoryIsQueued(u);
    var v := Step(u, Answer([1])).s;
    hide Run, Step, Base, Ranked, Possible, New;
    Extend(OLD_ANSWER, s, AcquireReader(DefaultReader), t);
    var ops := OLD_ANSWER + [AcquireReader(DefaultReader)];
    Extend(ops, t, DefaultRead, u);
    Extend(ops + [DefaultRead], u, Answer([1]), v);
    ReachedIsRanked(ops + [DefaultRead] + [Answer([1])], v);
    ReadOvertakes(v);
    Extend(ops + [DefaultRead] + [Answer([1])], v, DefaultRead, Step(v, DefaultRead).s);
  }

  /** The core of a stream on which read 1 waits, read 0 having failed when its reader was released. */
  predicate ReadOneWaits(c: Core<seq<byte>>) {
    c == Core(Readable, None, DefaultReader, [1], 2, [Failed(0, ReaderReleased)])
  }

  lemma ReadWaits(s: Stream)
    requires s == Released([], 1, Live, DefaultReader)
    ensures Possible(s, AcquireReader(DefaultReader)) && Possible(s, DefaultRead) && Possible(s, Answer([1]))
    ensures var r := Step(s, DefaultRead);
            r.Returns? && ReadOneWaits(r.s.core) && r.s == s.(core := r.s.core, asks := r.s.asks)
  {
  }

  lemma MemoryIsQueued(s: Stream)
    requires ReadOneWaits(s.core) && s.size == 0 && s.queue == [] && !s.closeRequested && s.slot == Live
    requires s.pending == [FourBytes([], 1, NoReader)]
    ensures var r := Step(s, Answer([1]));
            r.Returns? && ReadOneWaits(r.s.core) && r.s.size == 4 && |r.s.queue| == 1 && !r.s.closeRequested
  {
    hide Evaluate;
  }

  lemma ReadOvertakes(s: Stream)
    requires Base(s) && Ranked(s)
    requires ReadOneWaits(s.core) && s.size == 4 && |s.queue| == 1 && !s.closeRequested
    ensures var r := Step(s, DefaultRead);
            && Possible(s, DefaultRead) && r.Returns? && !SettlesInOrder(r.s.core)
            && r.s.core.requests == [1] && Ids(r.s.core.log) == [0, 2]
  {
    hide Base, Ranked, Evaluate, SettlesInOrder;
    StepKeepsOrderIff(s, DefaultRead);
  }
}
