/**
 Pull-into descriptors: filling them from the chunk queue, committing them to read requests, and
 the loop that processes the pending ones.
 */
module PullInto {
  import opened Chunks
  import opened StreamCore
  import opened Wrappers

  type Positive = n: int | 0 < n witness 1

  /**
   `data` is what has been filled so far and `rest` the memory of the unfilled part, so the
   source's `filled` is |data| and its `length` is |data| + |rest|.
   */
  datatype Descriptor = Descriptor(
    data: seq<byte>,
    rest: seq<byte>,
    offset: nat,
    min: nat,
    element: Positive,
    kind: ReaderKind)
  {
    function Filled(): nat { |data| }

    function Length(): nat { |data| + |rest| }

    /** Copies bytes to the start of the unfilled part. */
    function Absorb(bytes: seq<byte>): Descriptor
      requires |bytes| <= |rest|
    {
      this.(data := data + bytes, rest := rest[|bytes|..])
    }

    /** The bytes of the view constructed over the descriptor: whole elements only. */
    function View(): seq<byte> {
      data[..|data| - |data| % element]
    }
  }

  ghost predicate WellShaped(d: Descriptor) {
    && 0 < d.min <= d.Length()
    && d.min % d.element == 0
    && d.Length() % d.element == 0
  }

  /** A pending descriptor is never more than a partial element past its minimum. */
  ghost predicate Unsatisfied(d: Descriptor) {
    d.Filled() < d.min + d.element
  }

  // ---- fill_pull_into_descriptor ---------------------------------------------------------------

  function MaxCopy(available: nat, d: Descriptor): nat {
    if available <= |d.rest| then available else |d.rest|
  }

  function MaxAligned(available: nat, d: Descriptor): nat {
    var total := d.Filled() + MaxCopy(available, d);
    total - total % d.element
  }

  /** The comparison is strict, where the Streams Standard has "greater than or equal". */
  predicate Ready(available: nat, d: Descriptor) {
    MaxAligned(available, d) > d.min
  }

  /** How much to copy; negative where the source's unsigned subtraction would underflow. */
  function CopyCount(available: nat, d: Descriptor): (n: int)
    ensures n <= available && n <= |d.rest|
  {
    if Ready(available, d) then MaxAligned(available, d) - d.Filled() else MaxCopy(available, d)
  }

  lemma MulMono(m: nat, k: int)
    requires m > 0
    ensures k >= 1 ==> m * k >= m
    ensures k <= -1 ==> m * k + m <= 0
  {
  }

  lemma DivisionIsUnique(a: nat, q: int, r: nat, m: nat)
    requires m > 0 && r < m && a == m * q + r
    ensures a % m == r && a / m == q
  {
    var k := a / m - q;
    assert m * k == m * (a / m) - m * q;
    MulMono(m, k);
  }

  lemma MultipleGap(a: nat, b: nat, m: nat)
    requires m > 0 && a % m == 0 && b % m == 0 && a > b
    ensures a >= b + m
  {
    var k := a / m - b / m;
    assert m * k == m * (a / m) - m * (b / m) == a - b;
    MulMono(m, k);
  }

  lemma RoundDown(a: nat, m: nat)
    requires m > 0
    ensures (a - a % m) % m == 0 && a - m < a - a % m <= a
  {
    DivisionIsUnique(a - a % m, a / m, 0, m);
  }

  lemma RoundDownAbove(a: nat, b: nat, m: nat)
    requires m > 0 && b % m == 0 && b <= a
    ensures b <= a - a % m
  {
    RoundDown(a, m);
    if a - a % m < b {
      MultipleGap(b, a - a % m, m);
    }
  }

  /**
   Filling never underflows; when ready the descriptor ends aligned, above its minimum; when not,
   it stays unsatisfied and either the queue or the descriptor has been used up.
   */
  lemma FillArithmetic(available: nat, d: Descriptor)
    requires WellShaped(d) && Unsatisfied(d)
    ensures 0 <= CopyCount(available, d)
    ensures var filled := d.Filled() + CopyCount(available, d);
            if Ready(available, d)
            then filled % d.element == 0 && d.min < filled <= d.Length()
            else filled < d.min + d.element
                 && (CopyCount(available, d) == available || filled == d.Length() == d.min)
  {
    var total := d.Filled() + MaxCopy(available, d);
    RoundDown(total, d.element);
    var aligned := MaxAligned(available, d);
    if Ready(available, d) {
      MultipleGap(aligned, d.min, d.element);
    } else if MaxCopy(available, d) < available {
      assert total == d.Length();
    }
  }

  /** The descriptor and the queue after a fill: a prefix of the queued bytes moves over. */
  function FilledFrom(queue: seq<seq<byte>>, d: Descriptor): Descriptor
    requires 0 <= CopyCount(|Flatten(queue)|, d)
  {
    d.Absorb(Flatten(queue)[..CopyCount(|Flatten(queue)|, d)])
  }

  function QueueAfter(queue: seq<seq<byte>>, d: Descriptor): seq<seq<byte>>
    requires 0 <= CopyCount(|Flatten(queue)|, d)
  {
    DropFirst(queue, CopyCount(|Flatten(queue)|, d))
  }

  // ---- How much a fill takes -------------------------------------------------------------------

  /** A whole number of the descriptor's elements that its memory and the bytes at hand allow. */
  predicate Reachable(n: nat, queued: nat, d: Descriptor) {
    n % d.element == 0 && n <= d.Length() && n <= d.Filled() + queued
  }

  /** The most that can be in the descriptor when this many bytes are queued. */
  function MostBytes(queued: nat, d: Descriptor): nat {
    if d.Filled() + queued <= d.Length() then d.Filled() + queued else d.Length()
  }

  /** A ready descriptor ends with the largest whole number of elements within reach, any other with all there is. */
  lemma CopiesTheMost(queued: nat, d: Descriptor)
    ensures Ready(queued, d) ==>
              forall n: nat :: n % d.element == 0 && n <= d.Length() && n <= d.Filled() + queued
                               ==> n <= d.Filled() + CopyCount(queued, d)
    ensures !Ready(queued, d) ==> d.Filled() + CopyCount(queued, d) == MostBytes(queued, d)
  {
    var most := MostBytes(queued, d);
    assert most == d.Filled() + MaxCopy(queued, d);
    forall n: nat | n % d.element == 0 && n <= d.Length() && n <= d.Filled() + queued
      ensures n <= MaxAligned(queued, d)
    {
      RoundDownAbove(most, n, d.element);
    }
  }

  /**
   A descriptor is ready exactly when a whole number of elements above its minimum is within reach.
   Then it is given the largest such number; otherwise it is given all that it has memory for.
   */
  lemma FillIsMaximal(queue: seq<seq<byte>>, d: Descriptor)
    requires WellShaped(d) && Unsatisfied(d) && NoEmptyChunk(queue)
    ensures var queued := |Flatten(queue)|;
            Ready(queued, d) <==> exists n: nat :: d.min < n && Reachable(n, queued, d)
    ensures 0 <= CopyCount(|Flatten(queue)|, d)
    ensures var queued, filled := |Flatten(queue)|, FilledFrom(queue, d).Filled();
            if Ready(queued, d) then
              Reachable(filled, queued, d) && forall n: nat :: Reachable(n, queued, d) ==> n <= filled
            else filled == MostBytes(queued, d)
  {
    hide Flatten, NoEmptyChunk, DropFirst;
    var queued := |Flatten(queue)|;
    FillFacts(queue, d);
    FillMovesPrefix(queue, d);
    var most := MostBytes(queued, d);
    assert most == d.Filled() + MaxCopy(queued, d);
    RoundDown(most, d.element);
    assert Reachable(MaxAligned(queued, d), queued, d);
    forall n: nat | Reachable(n, queued, d) ensures n <= MaxAligned(queued, d) {
      RoundDownAbove(most, n, d.element);
    }
  }

  // ---- process_descriptors ---------------------------------------------------------------------

  /** The outcome of the loop: it may also hit an `unwrap` on an empty queue, or never exit. */
  datatype Progress =
    | Done(queue: seq<seq<byte>>, pending: seq<Descriptor>, requests: seq<nat>, events: seq<Event<seq<byte>>>)
    | Panics
    | Spins

  /** PullIntoDescriptor::commit for the request `id`. */
  function CommitEvent(d: Descriptor, id: nat, st: State): Event<seq<byte>> {
    if st == Closed then Ended(id, Some(d.View())) else Served(id, d.View())
  }

  function Process(queue: seq<seq<byte>>, pending: seq<Descriptor>, requests: seq<nat>, st: State): Progress
    decreases |pending|
  {
    if pending == [] || |Flatten(queue)| == 0 then
      Done(queue, pending, requests, [])
    else if CopyCount(|Flatten(queue)|, pending[0]) < 0 then
      Panics
    else
      var d := FilledFrom(queue, pending[0]);
      var left := QueueAfter(queue, pending[0]);
      if Ready(|Flatten(queue)|, pending[0]) then
        if requests == [] then Panics
        else
          match Process(left, pending[1..], requests[1..], st)
          case Done(q, p, r, events) => Done(q, p, r, [CommitEvent(d, requests[0], st)] + events)
          case other => other
      else if |Flatten(left)| == 0 then
        Done(left, [d] + pending[1..], requests, [])
      else
        Spins
  }

  /** The state the loop works on. */
  datatype Loop = Loop(
    queue: seq<seq<byte>>, pending: seq<Descriptor>, requests: seq<nat>, events: seq<Event<seq<byte>>>)

  predicate Guard(l: Loop) {
    l.pending != [] && |Flatten(l.queue)| > 0
  }

  predicate CanIterate(l: Loop) {
    && Guard(l)
    && 0 <= CopyCount(|Flatten(l.queue)|, l.pending[0])
    && (Ready(|Flatten(l.queue)|, l.pending[0]) ==> l.requests != [])
  }

  /** One iteration of the source's `while` loop. */
  function Iterate(l: Loop, st: State): Loop
    requires CanIterate(l)
  {
    var d := FilledFrom(l.queue, l.pending[0]);
    var left := QueueAfter(l.queue, l.pending[0]);
    if Ready(|Flatten(l.queue)|, l.pending[0]) then
      Loop(left, l.pending[1..], l.requests[1..], l.events + [CommitEvent(d, l.requests[0], st)])
    else
      l.(queue := left, pending := [d] + l.pending[1..])
  }

  /** The loop, started in `l`, is still going after `n` iterations. */
  predicate StillRunning(l: Loop, st: State, n: nat)
    decreases n
  {
    CanIterate(l) && (n == 0 || StillRunning(Iterate(l, st), st, n - 1))
  }

  ghost predicate LoopsForever(l: Loop, st: State) {
    forall n: nat :: StillRunning(l, st, n)
  }

  ghost predicate Shapes(pending: seq<Descriptor>) {
    forall i :: 0 <= i < |pending| ==> WellShaped(pending[i])
  }

  ghost predicate AllPending(pending: seq<Descriptor>) {
    forall i :: 0 <= i < |pending| ==> WellShaped(pending[i]) && Unsatisfied(pending[i])
  }

  /** The minimum of every pending read leaves room for one more element. */
  ghost predicate RoomAboveMin(pending: seq<Descriptor>) {
    forall i :: 0 <= i < |pending| ==> pending[i].min < pending[i].Length()
  }

  /** Filling moves a prefix of the flattened queue behind the filled part, and loses nothing. */
  lemma FillMovesPrefix(queue: seq<seq<byte>>, d: Descriptor)
    requires 0 <= CopyCount(|Flatten(queue)|, d) && NoEmptyChunk(queue)
    ensures NoEmptyChunk(QueueAfter(queue, d))
    ensures FilledFrom(queue, d).data + Flatten(QueueAfter(queue, d)) == d.data + Flatten(queue)
    ensures FilledFrom(queue, d).Filled() == d.Filled() + CopyCount(|Flatten(queue)|, d)
    ensures FilledFrom(queue, d).Length() == d.Length()
    ensures QueueAfter(queue, d) == [] <==> CopyCount(|Flatten(queue)|, d) == |Flatten(queue)|
  {
    var n := CopyCount(|Flatten(queue)|, d);
    DropFirstFlattens(queue, n);
    EmptyQueueHoldsNothing(QueueAfter(queue, d));
    assert Flatten(queue) == Flatten(queue)[..n] + Flatten(queue)[n..];
    assert d.data + Flatten(queue) == (d.data + Flatten(queue)[..n]) + Flatten(queue)[n..];
  }

  /** What a fill of a pending descriptor establishes. */
  lemma FillFacts(queue: seq<seq<byte>>, d: Descriptor)
    requires WellShaped(d) && Unsatisfied(d) && NoEmptyChunk(queue)
    ensures 0 <= CopyCount(|Flatten(queue)|, d)
    ensures WellShaped(FilledFrom(queue, d)) && NoEmptyChunk(QueueAfter(queue, d))
    ensures FilledFrom(queue, d).data + Flatten(QueueAfter(queue, d)) == d.data + Flatten(queue)
    ensures FilledFrom(queue, d).Length() == d.Length()
    ensures var d' := FilledFrom(queue, d);
            if Ready(|Flatten(queue)|, d)
            then d'.View() == d'.data && d'.Filled() % d.element == 0 && d.min < d'.Filled() <= d.Length()
            else Unsatisfied(d') &&
                 (QueueAfter(queue, d) == [] || d'.Filled() == d.Length() == d.min)
  {
    FillArithmetic(|Flatten(queue)|, d);
    FillMovesPrefix(queue, d);
  }

  /** The outcome of a loop that has already settled reads. */
  function Prepend(events: seq<Event<seq<byte>>>, r: Progress): Progress {
    match r
    case Done(queue, pending, requests, later) => Done(queue, pending, requests, events + later)
    case other => other
  }

  /**
   What one pass decides: it fails an `unwrap`, or it is stuck, or the loop's outcome is still to come
   and there are fewer pending reads, or as many and fewer bytes queued.
   */
  lemma IterationDecides(l: Loop, st: State)
    requires Guard(l) && NoEmptyChunk(l.queue) && 0 <= CopyCount(|Flatten(l.queue)|, l.pending[0])
    ensures var r := Process(l.queue, l.pending, l.requests, st);
            var d := l.pending[0];
            && (!CanIterate(l) ==> r.Panics?)
            && (!Ready(|Flatten(l.queue)|, d) && |Flatten(QueueAfter(l.queue, d))| > 0 ==> r.Spins?)
            && (CanIterate(l) && (Ready(|Flatten(l.queue)|, d) || |Flatten(QueueAfter(l.queue, d))| == 0) ==>
                  var next := Iterate(l, st);
                  && l.events <= next.events
                  && r == Prepend(next.events[|l.events|..],
                                  Process(next.queue, next.pending, next.requests, st))
                  && NoEmptyChunk(next.queue)
                  && (|next.pending| < |l.pending| ||
                      (|next.pending| == |l.pending| && |Flatten(next.queue)| < |Flatten(l.queue)|)))
  {
    hide Ready, CopyCount, CommitEvent, FilledFrom, QueueAfter, Flatten, NoEmptyChunk;
    var d := l.pending[0];
    FillMovesPrefix(l.queue, d);
    if CanIterate(l) && !Ready(|Flatten(l.queue)|, d) {
      assert Iterate(l, st).events[|l.events|..] == [];
    }
  }

  /** The recursive description agrees with running the source's loop. */
  lemma {:induction false} ProcessDescribesLoop(l: Loop, st: State)
    requires Shapes(l.pending) && NoEmptyChunk(l.queue)
    ensures Process(l.queue, l.pending, l.requests, st).Spins? <==> LoopsForever(l, st)
    decreases |l.pending|
  {
    hide Ready, CopyCount, CommitEvent, FilledFrom, QueueAfter, Flatten, NoEmptyChunk, WellShaped;
    if !Guard(l) || CopyCount(|Flatten(l.queue)|, l.pending[0]) < 0 || !CanIterate(l) {
      assert !StillRunning(l, st, 0);
    } else {
      var d := l.pending[0];
      FillMovesPrefix(l.queue, d);
      EmptyQueueHoldsNothing(QueueAfter(l.queue, d));
      var next := Iterate(l, st);
      if Ready(|Flatten(l.queue)|, d) {
        ProcessDescribesLoop(next, st);
        OneMoreIteration(l, st);
      } else if QueueAfter(l.queue, d) == [] {
        assert !StillRunning(next, st, 0);
        assert !StillRunning(l, st, 1);
      } else {
        StuckLoop(l, st);
      }
    }
  }

  lemma OneMoreIteration(l: Loop, st: State)
    requires CanIterate(l)
    ensures LoopsForever(l, st) <==> LoopsForever(Iterate(l, st), st)
  {
    hide Iterate, CanIterate;
    var next := Iterate(l, st);
    if LoopsForever(next, st) {
      forall n: nat ensures StillRunning(l, st, n) {
        if n > 0 { assert StillRunning(next, st, n - 1); }
      }
    } else {
      var n: nat :| !StillRunning(next, st, n);
      assert !StillRunning(l, st, n + 1);
    }
  }

  /** A read filled up without becoming ready has no room above its minimum, and stays as it is. */
  lemma FullAndUnready(available: nat, d: Descriptor)
    requires WellShaped(d) && !Ready(available, d) && CopyCount(available, d) < available
    ensures CopyCount(available, d) == |d.rest| && d.min == d.Length()
    ensures forall more: nat, full: Descriptor ::
              full == d.(data := full.data, rest := []) && |full.data| == d.Length() ==>
                !Ready(more, full) && CopyCount(more, full) == 0
  {
  }

  /** A full descriptor whose minimum is its whole length is never ready: the loop stops progressing. */
  lemma StuckLoop(l: Loop, st: State)
    requires Shapes(l.pending) && NoEmptyChunk(l.queue) && CanIterate(l)
    requires !Ready(|Flatten(l.queue)|, l.pending[0])
    requires QueueAfter(l.queue, l.pending[0]) != []
    ensures LoopsForever(l, st)
    ensures Process(l.queue, l.pending, l.requests, st).Spins?
  {
    hide Ready, CopyCount, CommitEvent, Flatten, NoEmptyChunk, WellShaped, DropFirst;
    var d, total := l.pending[0], |Flatten(l.queue)|;
    FillMovesPrefix(l.queue, d);
    EmptyQueueHoldsNothing(QueueAfter(l.queue, d));
    FullAndUnready(total, d);
    var next := Iterate(l, st);
    var full := next.pending[0];
    assert full.rest == [] && full.Absorb([]) == full;
    assert [full] + next.pending[1..] == next.pending;
    DropsNothing(next.queue);
    assert Flatten(next.queue)[..0] == [];
    assert Iterate(next, st) == next;
    FixpointRuns(next, st);
    OneMoreIteration(l, st);
  }

  lemma DropsNothing(queue: seq<seq<byte>>)
    ensures DropFirst(queue, 0) == queue
  {
  }

  lemma FixpointRuns(l: Loop, st: State)
    requires CanIterate(l) && Iterate(l, st) == l
    ensures LoopsForever(l, st)
  {
    forall n: nat ensures StillRunning(l, st, n) {
      FixpointRunsFor(l, st, n);
    }
  }

  lemma {:induction false} FixpointRunsFor(l: Loop, st: State, n: nat)
    requires CanIterate(l) && Iterate(l, st) == l
    ensures StillRunning(l, st, n)
  {
    if n > 0 {
      FixpointRunsFor(l, st, n - 1);
      var next := Iterate(l, st);
      assert next == l;
      assert StillRunning(next, st, n - 1);
    }
  }

  // ---- Exactly when the loop can hang ----------------------------------------------------------

  function RestSum(pending: seq<Descriptor>): nat {
    if pending == [] then 0 else |pending[0].rest| + RestSum(pending[1..])
  }

  lemma {:induction false} ExitsWithRoom(
      queue: seq<seq<byte>>, pending: seq<Descriptor>, requests: seq<nat>, st: State)
    requires AllPending(pending) && RoomAboveMin(pending) && NoEmptyChunk(queue)
    ensures !Process(queue, pending, requests, st).Spins?
    decreases |pending|
  {
    if pending != [] && |Flatten(queue)| > 0 {
      FillFacts(queue, pending[0]);
      if Ready(|Flatten(queue)|, pending[0]) && requests != [] {
        ExitsWithRoom(QueueAfter(queue, pending[0]), pending[1..], requests[1..], st);
      }
    }
  }

  lemma {:induction false} OverfullQueueHangs(
      queue: seq<seq<byte>>, pending: seq<Descriptor>, requests: seq<nat>, st: State)
    requires AllPending(pending) && !RoomAboveMin(pending) && NoEmptyChunk(queue)
    requires |pending| <= |requests| && RestSum(pending) < |Flatten(queue)|
    ensures Process(queue, pending, requests, st).Spins?
    decreases |pending|
  {
    var d, total := pending[0], |Flatten(queue)|;
    FillFacts(queue, d);
    FillMovesPrefix(queue, d);
    assert MaxCopy(total, d) == |d.rest| && MaxAligned(total, d) == d.Length();
    if Ready(total, d) {
      assert CopyCount(total, d) == |d.rest|;
      DropFirstFlattens(queue, |d.rest|);
      OverfullQueueHangs(QueueAfter(queue, d), pending[1..], requests[1..], st);
    } else {
      EmptyQueueHoldsNothing(QueueAfter(queue, d));
    }
  }

  /**
   process_descriptors exits whatever is queued if and only if every pending read left room above
   its minimum; otherwise some queue makes the loop run for ever.
   */
  lemma ExitsForEveryQueueIff(pending: seq<Descriptor>, st: State)
    requires AllPending(pending)
    ensures RoomAboveMin(pending) <==>
            forall l: Loop :: l.pending == pending && NoEmptyChunk(l.queue) && |pending| <= |l.requests|
                              ==> !LoopsForever(l, st)
  {
    assert Shapes(pending);
    if RoomAboveMin(pending) {
      forall l: Loop | l.pending == pending && NoEmptyChunk(l.queue) && |pending| <= |l.requests|
        ensures !LoopsForever(l, st)
      {
        ExitsWithRoom(l.queue, pending, l.requests, st);
        ProcessDescribesLoop(l, st);
      }
    } else {
      var chunk: seq<byte> := seq(RestSum(pending) + 1, _ => 0);
      var requests: seq<nat> := seq(|pending|, i => i);
      var l := Loop([chunk], pending, requests, []);
      assert Flatten(l.queue) == chunk;
      OverfullQueueHangs(l.queue, pending, requests, st);
      ProcessDescribesLoop(l, st);
    }
  }
}
