/**
 The byte-stream half of a ReadableStream as a state machine: a ReadableByteStreamController, its
 stream and the reader that locks it. Every operation is a total function on states; where the
 source would fail an `unwrap` or an unsigned subtraction the outcome is `Panic`, and where
 its loop would not exit it is `Hang`.
 */
module ByteStream {
  import opened Chunks
  import opened StreamCore
  import opened Wrappers
  import opened PullProtocol
  import opened PullInto

  /** The cached ByobRequest: none, one whose controller has been taken, or a usable one. */
  datatype Slot = Vacant | Spent | Live

  datatype Ask = ByobAsk(element: Positive, min: nat, length: nat) | DefaultAsk

  /**
   The last four fields are history: what each read asked for, the bytes accepted from the source,
   whether queued bytes have been thrown away, and whether a partial read lost its reader.
   */
  datatype Stream = Stream(
    core: Core<seq<byte>>,
    pull: Pull,
    closeRequested: bool,
    size: int,
    mark: HighWaterMark,
    auto: nat,
    slot: Slot,
    pending: seq<Descriptor>,
    queue: seq<seq<byte>>,
    asks: seq<Ask>,
    produced: seq<byte>,
    dropped: bool)

  datatype Outcome = Returns(s: Stream, ok: bool) | Panic | Hang

  function NewStream(mark: HighWaterMark, auto: nat): Stream {
    Stream(NewCore(), Idle, false, 0, mark, auto, Vacant, [], [], [], [], false)
  }

  // ---- CommonController ------------------------------------------------------------------------

  predicate CanCloseOrEnqueue(s: Stream) {
    s.core.st == Readable && !s.closeRequested
  }

  predicate ShouldCallPull(s: Stream) {
    && CanCloseOrEnqueue(s)
    && s.pull.started
    && ((s.core.kind != NoReader && s.core.requests != []) || Exceeds(s.mark, s.size))
  }

  function PullIfNeeded(s: Stream): Stream {
    s.(pull := Evaluate(s.pull, s.core.st, ShouldCallPull(s)))
  }

  function ResetQueue(s: Stream): Stream {
    s.(slot := Vacant, pending := [], queue := [], size := 0, dropped := true)
  }

  function ErrorInternal(s: Stream, reason: Reason): Stream {
    if s.core.st == Readable then
      ResetQueue(s).(core := ErrorCore(s.core, reason))
    else s
  }

  function SettleWith(s: Stream, e: Event<seq<byte>>): Stream {
    s.(core := Settle(s.core, e))
  }

  // ---- Readers ---------------------------------------------------------------------------------

  function GetReader(s: Stream, kind: ReaderKind): Outcome {
    if s.core.kind != NoReader || kind == NoReader then Returns(s, false)
    else Returns(s.(core := s.core.(kind := kind)), true)
  }

  /** Controller::release keeps only the front descriptor, detached from any reader. */
  function Detach(pending: seq<Descriptor>): seq<Descriptor> {
    if pending == [] then [] else [pending[0].(kind := NoReader)]
  }

  function ReleaseLock(s: Stream): Outcome {
    if s.core.kind == NoReader then Returns(s, false)
    else Returns(s.(core := ReleaseCore(s.core), pending := Detach(s.pending)), true)
  }

  /** ReadableStream::cancel, refused on a locked stream. */
  function Cancel(s: Stream): Outcome {
    if s.core.kind != NoReader then Returns(s, false)
    else if s.core.st == Readable then Returns(ResetQueue(s.(core := CloseCore(s.core))), true)
    else Returns(s, true)
  }

  /** DefaultReader::read, with Controller::pull for a byte controller. */
  function ReadDefault(s: Stream): Outcome {
    if s.core.kind != DefaultReader then Returns(s, false)
    else
      var id := s.core.issued;
      var s := s.(core := Issue(s.core), asks := s.asks + [DefaultAsk]);
      match s.core.st
      case Closed => Returns(SettleWith(s, Ended(id, None)), true)
      case Errored => Returns(SettleWith(s, Failed(id, StoredError(s.core))), true)
      case Readable =>
        if s.size > 0 then
          if s.queue == [] then Panic
          else
            var chunk := s.queue[0];
            var s := s.(queue := s.queue[1..], size := s.size - |chunk|);
            if s.size == 0 && s.closeRequested then
              var r := Close(s);
              if r.ok then Returns(SettleWith(r.s, Served(id, chunk)), true) else r
            else
              Returns(SettleWith(PullIfNeeded(s), Served(id, chunk)), true)
        else
          var s := if s.auto == 0 then s
                   else s.(pending := s.pending + [AutoDescriptor(s.auto)]);
          Returns(PullIfNeeded(s.(core := s.core.(requests := s.core.requests + [id]))), true)
  }

  function AutoDescriptor(size: nat): Descriptor {
    Descriptor([], seq(size, _ => 0), 0, 1, 1, DefaultReader)
  }

  /** A read that could not be answered: its descriptor waits, and its request while readable. */
  function AddPending(s: Stream, d: Descriptor, id: nat): Stream {
    s.(pending := s.pending + [d],
       core := if s.core.st == Readable then s.core.(requests := s.core.requests + [id]) else s.core)
  }

  /**
   ByobReader::read for a view of `len` bytes whose elements take `element` bytes; the memory a
   descriptor is given is `len * element` bytes long, as the source computes it.
   */
  function ReadByob(s: Stream, memory: seq<byte>, offset: nat, element: Positive, len: nat, min: nat): Outcome
    requires |memory| == len * element
  {
    if s.core.kind != ByobReader || len == 0 || min == 0 || min > len then Returns(s, false)
    else
      var id := s.core.issued;
      var s := s.(core := Issue(s.core), asks := s.asks + [ByobAsk(element, min * element, |memory|)]);
      var d := Descriptor([], memory, offset, min * element, element, ByobReader);
      if s.core.st == Errored then Returns(SettleWith(s, Failed(id, StoredError(s.core))), true)
      else if s.pending != [] then Returns(AddPending(s, d, id), true)
      else if s.core.st == Closed then Returns(SettleWith(s, Ended(id, Some([]))), true)
      else if s.size > 0 then ReadFromQueue(s, d, id)
      else Returns(PullIfNeeded(AddPending(s, d, id)), true)
  }

  function ReadFromQueue(s: Stream, d: Descriptor, id: nat): Outcome {
    var n := CopyCount(|Flatten(s.queue)|, d);
    if n < 0 then Panic
    else
      var filled := FilledFrom(s.queue, d);
      var t := s.(queue := QueueAfter(s.queue, d), size := s.size - n);
      if Ready(|Flatten(s.queue)|, d) then
        if t.size == 0 && t.closeRequested then
          var r := Close(t);
          if r.ok then Returns(SettleWith(r.s, Served(id, filled.View())), true) else r
        else
          Returns(SettleWith(PullIfNeeded(t), Served(id, filled.View())), true)
      else if t.closeRequested then
        Returns(SettleWith(ErrorInternal(t, ClosedByRequest), Failed(id, ClosedByRequest)), true)
      else
        Returns(PullIfNeeded(AddPending(t, filled, id)), true)
  }

  // ---- ByteStreamController --------------------------------------------------------------------

  function Close(s: Stream): (r: Outcome)
    ensures r.Returns?
  {
    if !CanCloseOrEnqueue(s) then Returns(s, false)
    else
      var s := s.(closeRequested := s.size > 0);
      if s.pending != [] && s.pending[0].Filled() % s.pending[0].element > 0 then
        Returns(ErrorInternal(s, PendingNotAligned), false)
      else
        Returns(s.(core := CloseCore(s.core)), true)
  }

  function PushChunk(s: Stream, chunk: seq<byte>): Stream {
    s.(queue := s.queue + [chunk], size := s.size + |chunk|)
  }

  /** process_descriptors for the reader that locks the stream. */
  function ProcessDescriptors(s: Stream): Outcome {
    match Process(s.queue, s.pending, s.core.requests, s.core.st)
    case Done(queue, pending, requests, events) =>
      Returns(s.(queue := queue, size := s.size - (|Flatten(s.queue)| - |Flatten(queue)|), pending := pending,
                 core := s.core.(requests := requests, log := s.core.log + events)), true)
    case Panics => Panic
    case Spins => Hang
  }

  /** The waiting requests of a default reader take queued chunks, then the new one. */
  function Serve(s: Stream, chunk: seq<byte>): Outcome
    decreases |s.core.requests|
  {
    if s.core.requests == [] then Returns(PushChunk(s, chunk), true)
    else
      var id := s.core.requests[0];
      var t := s.(core := s.core.(requests := s.core.requests[1..]));
      if s.size == 0 then
        Returns(SettleWith(t.(pending := if t.pending == [] then [] else t.pending[1..]), Served(id, chunk)), true)
      else if s.queue == [] then Panic
      else
        var t := PullIfNeeded(t.(queue := t.queue[1..], size := t.size - |t.queue[0]|));
        Serve(SettleWith(t, Served(id, s.queue[0])), chunk)
  }

  /** A detached front descriptor gives way to a new chunk; what it held goes back on the queue. */
  function ShiftDetached(s: Stream): Stream {
    if s.pending == [] then s
    else
      var s := s.(slot := Vacant);
      var d := s.pending[0];
      if d.kind != NoReader then s
      else
        var s := if d.Filled() > 0 then PushChunk(s, d.data + d.rest) else s;
        s.(pending := s.pending[1..])
  }

  function Enqueue(s: Stream, chunk: seq<byte>): Outcome {
    if chunk == [] || !CanCloseOrEnqueue(s) then Returns(s, false)
    else
      Arrive(ShiftDetached(s.(produced := s.produced + chunk)), chunk)
  }

  /** A new chunk serves the reader's waiting reads and is queued as far as they leave of it. */
  function Arrive(s: Stream, chunk: seq<byte>): Outcome {
    var r := match s.core.kind
      case DefaultReader => Serve(s, chunk)
      case ByobReader => ProcessDescriptors(PushChunk(s, chunk))
      case NoReader => Returns(PushChunk(s, chunk), true);
    if r.Returns? then Returns(PullIfNeeded(r.s), true) else r
  }

  /** get_byob_request creates a request for the front descriptor unless one is cached. */
  function GetByobRequest(s: Stream): Stream {
    if s.slot == Vacant && s.pending != [] then s.(slot := Live) else s
  }

  /** ByobRequest::respond after the source has written `bytes` into the request's view. */
  function Respond(s: Stream, bytes: seq<byte>): Outcome {
    if s.slot != Live then Returns(s, false)
    else if s.pending == [] then Panic
    else if s.pending[0].rest == [] then Returns(s.(slot := Spent), false)
    else RespondInternal(s.(slot := Spent), bytes)
  }

  /** ByobRequest::respond_with_new_view for a view of the bytes `view` at `offset`. */
  function RespondWithNewView(s: Stream, view: seq<byte>, offset: nat): Outcome {
    if s.slot != Live then Returns(s, false)
    else
      var s := s.(slot := Spent);
      if s.core.st == Errored then Panic
      else if (s.core.st == Readable) == (view == []) then Returns(s, false)
      else if s.pending == [] then Panic
      else
        var d := s.pending[0];
        if d.offset + d.Filled() != offset || d.Length() != |view| || d.Filled() + |view| > d.Length() then
          Returns(s, false)
        else RespondInternal(s, view)
  }

  /** ByteStreamController::respond; `slot` no longer holds a usable request. */
  function RespondInternal(s: Stream, bytes: seq<byte>): Outcome
    requires s.pending != []
  {
    match s.core.st
    case Errored => Returns(s, false)
    case Closed =>
      if bytes != [] then Returns(s, false) else RespondClosed(s.(slot := Vacant))
    case Readable =>
      if bytes == [] || |bytes| > |s.pending[0].rest| then Returns(s, false)
      else
        var d := s.pending[0].Absorb(bytes);
        RespondReadable(s.(slot := Vacant, pending := s.pending[0 := d], produced := s.produced + bytes))
  }

  function RespondReadable(s: Stream): Outcome
    requires s.pending != []
  {
    var d := s.pending[0];
    if d.kind == NoReader then
      var s := if d.Filled() > 0 then PushChunk(s, d.data + d.rest) else s;
      var r := if s.core.kind == ByobReader then ProcessDescriptors(s) else Returns(s, true);
      if r.Returns? then Returns(PullIfNeeded(r.s), true) else r
    else if d.Filled() < d.min then Returns(s, true)
    else
      var tail := d.Filled() % d.element;
      var s := s.(pending := s.pending[1..]);
      var s := if tail > 0 then PushChunk(s, d.data[d.Filled() - tail..]) else s;
      var r := if s.core.kind == ByobReader then CommitThenProcess(s, d.(data := d.View())) else Returns(s, true);
      if r.Returns? then Returns(PullIfNeeded(r.s), true) else r
  }

  function CommitThenProcess(s: Stream, d: Descriptor): Outcome {
    if s.core.requests == [] then Panic
    else
      var e := CommitEvent(d, s.core.requests[0], s.core.st);
      ProcessDescriptors(s.(core := Settle(s.core, e).(requests := s.core.requests[1..])))
  }

  /** The answer to a request on a closed stream settles every read that still waits. */
  function RespondClosed(s: Stream): Outcome
    requires s.pending != []
  {
    if s.core.kind == ByobReader then
      if |s.pending| < |s.core.requests| then Panic
      else
        var n := |s.core.requests|;
        Returns(PullIfNeeded(
          s.(pending := s.pending[n..],
             core := s.core.(requests := [], log := s.core.log + DrainEvents(s.pending, s.core.requests)))), true)
    else
      Returns(PullIfNeeded(s.(pending := s.pending[1..])), true)
  }

  function DrainEvents(pending: seq<Descriptor>, requests: seq<nat>): (events: seq<Event<seq<byte>>>)
    requires |requests| <= |pending|
  {
    seq(|requests|, i requires 0 <= i < |requests| => CommitEvent(pending[i], requests[i], Closed))
  }

  // ---- Runs ------------------------------------------------------------------------------------

  /** Everything that can happen to a byte stream: calls by scripts, and promise reactions. */
  datatype Op =
    | AcquireReader(kind: ReaderKind)
    | Release
    | CancelStream
    | DefaultRead
    | ByobRead(memory: seq<byte>, offset: nat, element: Positive, len: nat, min: nat)
    | EnqueueChunk(chunk: seq<byte>)
    | ByobRequest
    | Answer(bytes: seq<byte>)
    | AnswerWithView(view: seq<byte>, at: nat)
    | CloseStream
    | ErrorStream(reason: Reason)
    | StartFulfilled
    | StartRejected(reason: Reason)
    | PullFulfilled
    | PullRejected(reason: Reason)

  /** The size of the memory is tied to the view; reactions fire once, for a promise that exists. */
  predicate Possible(s: Stream, op: Op) {
    match op
    case ByobRead(memory, _, element, len, _) => |memory| == len * element
    case StartFulfilled => !s.pull.settled
    case StartRejected(_) => !s.pull.settled
    case PullFulfilled => s.pull.outstanding
    case PullRejected(_) => s.pull.outstanding
    case _ => true
  }

  function Step(s: Stream, op: Op): Outcome
    requires Possible(s, op)
  {
    match op
    case AcquireReader(kind) => GetReader(s, kind)
    case Release => ReleaseLock(s)
    case CancelStream => Cancel(s)
    case DefaultRead => ReadDefault(s)
    case ByobRead(memory, offset, element, len, min) => ReadByob(s, memory, offset, element, len, min)
    case EnqueueChunk(chunk) => Enqueue(s, chunk)
    case ByobRequest => Returns(GetByobRequest(s), true)
    case Answer(bytes) => Respond(s, bytes)
    case AnswerWithView(view, at) => RespondWithNewView(s, view, at)
    case CloseStream => Close(s)
    case ErrorStream(reason) => Returns(ErrorInternal(s, reason), true)
    case StartFulfilled => Returns(PullIfNeeded(s.(pull := s.pull.(started := true, settled := true))), true)
    case StartRejected(reason) => Returns(ErrorInternal(s.(pull := s.pull.(settled := true)), reason), true)
    case PullFulfilled => Returns(s.(pull := Fulfil(s.pull, s.core.st, ShouldCallPull(s))), true)
    case PullRejected(reason) => Returns(ErrorInternal(s.(pull := Reject(s.pull)), reason), true)
  }
}
