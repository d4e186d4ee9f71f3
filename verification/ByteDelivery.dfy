/**
 Runs in which no partly filled descriptor loses its reader: the queue of descriptors and the queue
 of requests stay in lock-step, no `unwrap` fails, and the bytes delivered are the bytes produced.
 */
module ByteDelivery {
  import opened Chunks
  import opened StreamCore
  import opened Wrappers
  import opened PullInto
  import opened ByteStream
  import opened ByteLifecycle

  function ViewOf(e: Event<seq<byte>>): seq<byte> {
    match e
    case Served(_, view) => view
    case Ended(_, Some(view)) => view
    case _ => []
  }

  /** All bytes handed to readers, in the order in which they were handed out. */
  function Delivered(log: seq<Event<seq<byte>>>): seq<byte> {
    if log == [] then [] else ViewOf(log[0]) + Delivered(log[1..])
  }

  function FrontData(pending: seq<Descriptor>): seq<byte> {
    if pending == [] then [] else pending[0].data
  }

  predicate Detached(pending: seq<Descriptor>) {
    pending != [] && pending[0].kind == NoReader
  }

  /** The descriptors of reads made through the current reader. */
  function Attached(pending: seq<Descriptor>): seq<Descriptor> {
    if Detached(pending) then pending[1..] else pending
  }

  ghost predicate Matches(d: Descriptor, ask: Ask) {
    && ask.ByobAsk?
    && d.kind == ByobReader
    && d.element == ask.element && d.min == ask.min && d.Length() == ask.length
  }

  /** What a settled read may have received, given what it asked for. */
  ghost predicate Fits(e: Event<seq<byte>>, ask: Ask) {
    match ask
    case ByobAsk(element, min, length) =>
      (match e
       case Served(_, view) => |view| % element == 0 && min <= |view| <= length
       case Ended(_, last) => last.Some? && |last.value| % element == 0 && |last.value| <= length
       case Failed(_, _) => true)
    case DefaultAsk =>
      (match e
       case Served(_, view) => view != []
       case Ended(_, last) => last == None
       case Failed(_, _) => true)
  }

  ghost predicate AllFit(log: seq<Event<seq<byte>>>, asks: seq<Ask>) {
    forall i :: 0 <= i < |log| ==> log[i].id < |asks| && Fits(log[i], asks[log[i].id])
  }

  /** The i-th attached descriptor belongs to the i-th waiting request. */
  ghost predicate Paired(attached: seq<Descriptor>, requests: seq<nat>, asks: seq<Ask>) {
    && |requests| <= |attached|
    && forall i :: 0 <= i < |requests| ==> requests[i] < |asks| && Matches(attached[i], asks[requests[i]])
  }

  ghost predicate LockStep(s: Stream) {
    var attached := Attached(s.pending);
    && (forall i :: 0 <= i < |attached| ==> attached[i].kind == s.core.kind)
    && match s.core.kind
       case NoReader => attached == []
       case ByobReader =>
         && Paired(attached, s.core.requests, s.asks)
         && (s.core.st == Readable ==> |attached| == |s.core.requests|)
       case DefaultReader =>
         && (forall i :: 0 <= i < |attached| ==> attached[i].data == [] && attached[i].min == 1)
         && (s.core.st == Readable ==> |attached| == (if s.auto > 0 then |s.core.requests| else 0))
         && (forall i :: 0 <= i < |s.core.requests| ==>
               s.core.requests[i] < |s.asks| && s.asks[s.core.requests[i]] == DefaultAsk)
  }

  /** Nothing is queued while a read waits. */
  ghost predicate Starved(s: Stream) {
    s.pending != [] || s.core.requests != [] ==> s.queue == []
  }

  /** Bytes are neither lost, duplicated nor reordered. */
  ghost predicate Conserved(s: Stream) {
    if s.dropped then Delivered(s.core.log) <= s.produced
    else s.produced == Delivered(s.core.log) + FrontData(s.pending) + Flatten(s.queue)
  }

  ghost predicate AlignedWhenClosed(s: Stream) {
    s.core.st == Closed && s.pending != [] ==> s.pending[0].Filled() % s.pending[0].element == 0
  }

  ghost predicate Sound(s: Stream) {
    && Base(s)
    && SettlesInOrder(s.core)
    && AllPending(s.pending) && FrontOnly(s.pending)
    && LockStep(s)
    && Starved(s)
    && AlignedWhenClosed(s)
    && AllFit(s.core.log, s.asks)
    && Conserved(s)
  }

  /** Only the front descriptor can have been filled in part. */
  ghost predicate FrontOnly(pending: seq<Descriptor>) {
    forall i :: 1 <= i < |pending| ==> pending[i].data == []
  }

  /** An answer goes to a read of the reader that locks the stream. */
  predicate RegularAnswer(s: Stream) {
    s.pending != [] ==>
      s.pending[0].kind == ByobReader ||
      (s.core.st == Closed && s.core.kind != ByobReader && s.pending[0].data == [])
  }

  /** The steps that keep every byte; each condition can be checked before the call. */
  predicate Regular(s: Stream, op: Op) {
    match op
    case Answer(_) => RegularAnswer(s)
    case AnswerWithView(_, _) => RegularAnswer(s)
    case EnqueueChunk(_) => Detached(s.pending) ==> s.pending[0].data == []
    case ByobRead(memory, _, _, len, min) =>
      s.core.st == Readable && min == len && s.pending == [] ==> s.size <= |memory|
    case _ => true
  }

  // ---- Bytes -----------------------------------------------------------------------------------

  lemma {:induction false} DeliveredConcat(a: seq<Event<seq<byte>>>, b: seq<Event<seq<byte>>>)
    ensures Delivered(a + b) == Delivered(a) + Delivered(b)
  {
    if a == [] {
      assert a + b == b;
    } else {
      assert (a + b)[1..] == a[1..] + b;
      DeliveredConcat(a[1..], b);
    }
  }

  lemma DeliveredPush(log: seq<Event<seq<byte>>>, e: Event<seq<byte>>)
    ensures Delivered(log + [e]) == Delivered(log) + ViewOf(e)
  {
    DeliveredConcat(log, [e]);
    assert Delivered([e]) == ViewOf(e) + Delivered([]);
  }

  lemma {:induction false} NothingDelivered(events: seq<Event<seq<byte>>>)
    requires forall i :: 0 <= i < |events| ==> ViewOf(events[i]) == []
    ensures Delivered(events) == []
  {
    if events != [] {
      NothingDelivered(events[1..]);
    }
  }

  /** Bulk settling delivers nothing, and what it settles fits every ask of the right kind. */
  lemma BulkSettling(log: seq<Event<seq<byte>>>, requests: seq<nat>, reason: Reason)
    ensures Delivered(log + EndAll(requests)) == Delivered(log)
    ensures Delivered(log + FailAll(requests, reason)) == Delivered(log)
  {
    DeliveredConcat(log, EndAll(requests));
    DeliveredConcat(log, FailAll(requests, reason));
    NothingDelivered(EndAll(requests));
    NothingDelivered(FailAll(requests, reason));
  }

  // ---- The processing loop ---------------------------------------------------------------------

  /** The same read, whatever has been filled. */
  ghost predicate SameRead(a: Descriptor, b: Descriptor) {
    a.element == b.element && a.min == b.min && a.Length() == b.Length() && a.kind == b.kind
  }

  ghost predicate Remaining(left: seq<Descriptor>, pending: seq<Descriptor>, k: nat) {
    && |left| + k == |pending|
    && forall i :: 0 <= i < |left| ==> SameRead(left[i], pending[i + k])
  }

  lemma FrontTail(pending: seq<Descriptor>)
    requires FrontOnly(pending) && pending != []
    ensures FrontOnly(pending[1..]) && FrontData(pending[1..]) == []
  {
  }

  /** A ready descriptor is settled with all the bytes it holds, whether the stream is open or closed. */
  lemma ReadyCommitsAll(queue: seq<seq<byte>>, d: Descriptor, id: nat, st: State)
    requires NoEmptyChunk(queue) && 0 <= CopyCount(|Flatten(queue)|, d) && Ready(|Flatten(queue)|, d)
    ensures ViewOf(CommitEvent(FilledFrom(queue, d), id, st)) == FilledFrom(queue, d).data
  {
    hide Flatten, DropFirst, NoEmptyChunk;
    FillMovesPrefix(queue, d);
    RoundDown(d.Filled() + MaxCopy(|Flatten(queue)|, d), d.element);
  }

  /** Whatever the loop is given, when it exits it has lost no byte and reordered none. */
  lemma {:induction false} ProcessConserves(
      queue: seq<seq<byte>>, pending: seq<Descriptor>, requests: seq<nat>, st: State)
    requires NoEmptyChunk(queue) && FrontOnly(pending)
    requires Process(queue, pending, requests, st).Done?
    ensures var r := Process(queue, pending, requests, st);
            FrontData(pending) + Flatten(queue) == Delivered(r.events) + (FrontData(r.pending) + Flatten(r.queue))
    decreases |pending|
  {
    hide Flatten, Delivered, NoEmptyChunk, FrontOnly, Ready, CopyCount, FilledFrom, QueueAfter, ViewOf, CommitEvent;
    NothingDelivered([]);
    if pending != [] && |Flatten(queue)| > 0 {
      var d := pending[0];
      FillMovesPrefix(queue, d);
      FrontTail(pending);
      var filled, left := FilledFrom(queue, d), QueueAfter(queue, d);
      if Ready(|Flatten(queue)|, d) {
        ReadyCommitsAll(queue, d, requests[0], st);
        ProcessConserves(left, pending[1..], requests[1..], st);
        var rest := Process(left, pending[1..], requests[1..], st);
        DeliveredCons(CommitEvent(filled, requests[0], st), rest.events);
        Regroup(filled.data, Flatten(left), Delivered(rest.events), FrontData(rest.pending), Flatten(rest.queue));
      }
    }
  }

  lemma DeliveredCons(e: Event<seq<byte>>, events: seq<Event<seq<byte>>>)
    ensures Delivered([e] + events) == ViewOf(e) + Delivered(events)
  {
    assert ([e] + events)[1..] == events;
  }

  lemma Regroup(a: seq<byte>, b: seq<byte>, c: seq<byte>, d: seq<byte>, e: seq<byte>)
    requires [] + b == c + (d + e)
    ensures a + b == (a + c) + (d + e)
  {
    assert [] + b == b;
  }

  /**
   What the loop has done when it exits: every event fits the read it settles, the two queues have
   lost the same number of elements, and no read waits while bytes are queued.
   */
  ghost predicate KeepsPace(pending: seq<Descriptor>, requests: seq<nat>, asks: seq<Ask>, r: Progress)
    requires r.Done?
  {
    && AllPending(r.pending) && FrontOnly(r.pending) && NoEmptyChunk(r.queue)
    && |r.events| <= |requests| && r.requests == requests[|r.events|..]
    && Remaining(r.pending, pending, |r.events|)
    && AllFit(r.events, asks)
    && (r.pending == [] || r.queue == [])
  }

  lemma {:induction false} ProcessKeepsPace(
      queue: seq<seq<byte>>, pending: seq<Descriptor>, requests: seq<nat>, asks: seq<Ask>)
    requires AllPending(pending) && FrontOnly(pending) && NoEmptyChunk(queue)
    requires |pending| == |requests| && Paired(pending, requests, asks)
    ensures !Process(queue, pending, requests, Readable).Panics?
    ensures Process(queue, pending, requests, Readable).Done?
            ==> KeepsPace(pending, requests, asks, Process(queue, pending, requests, Readable))
    decreases |pending|
  {
    if pending == [] || |Flatten(queue)| == 0 {
      EmptyQueueHoldsNothing(queue);
    } else {
      var d := pending[0];
      FillFacts(queue, d);
      FillMovesPrefix(queue, d);
      var filled, left := FilledFrom(queue, d), QueueAfter(queue, d);
      if Ready(|Flatten(queue)|, d) {
        ProcessKeepsPace(left, pending[1..], requests[1..], asks);
        var rest := Process(left, pending[1..], requests[1..], Readable);
        if rest.Done? {
          assert Matches(d, asks[requests[0]]) && Matches(filled, asks[requests[0]]);
          CommitFits(filled, requests[0], asks[requests[0]]);
          PaceStep(CommitEvent(filled, requests[0], Readable), rest, pending, requests, asks);
        }
      } else {
        EmptyQueueHoldsNothing(left);
      }
    }
  }

  lemma CommitFits(d: Descriptor, id: nat, ask: Ask)
    requires Matches(d, ask) && d.View() == d.data
    requires d.Filled() % d.element == 0 && d.min <= d.Filled()
    ensures Fits(CommitEvent(d, id, Readable), ask)
    ensures ViewOf(CommitEvent(d, id, Readable)) == d.data
  {
  }

  lemma PaceStep(e: Event<seq<byte>>, rest: Progress, pending: seq<Descriptor>, requests: seq<nat>, asks: seq<Ask>)
    requires pending != [] && requests != []
    requires e.id == requests[0] < |asks| && Fits(e, asks[e.id])
    requires rest.Done? && KeepsPace(pending[1..], requests[1..], asks, rest)
    ensures KeepsPace(pending, requests, asks, Done(rest.queue, rest.pending, rest.requests, [e] + rest.events))
  {
    hide WellShaped, Unsatisfied, Fits, SameRead;
    assert rest.requests == requests[|[e] + rest.events|..];
  }
}
