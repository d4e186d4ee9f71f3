/** What each operation on a default stream brings about in every reachable state: for reads, the state and pulls. */
module DefaultEffects {
  import opened StreamCore
  import opened Wrappers
  import opened PullProtocol
  import opened DefaultStream

  // ---- When the source is pulled -----------------------------------------------------------------

  /** A read waits, or less is queued than the mark, on an open stream whose source has started. */
  predicate Due<V>(s: Stream<V>) {
    && s.core.st == Readable && !s.closeRequested && s.pull.started
    && (s.core.requests != [] || s.mark == Infinite || s.size as real < s.mark.level)
  }

  /** The operations after which the controller looks at whether a pull is due. */
  predicate Evaluates<V>(s: Stream<V>, op: Op<V>) {
    match op
    case StartFulfilled => true
    case PullFulfilled => s.pull.again
    case DefaultRead => s.core.kind == DefaultReader && s.core.st == Readable
    case EnqueueChunk(_, measured) =>
      s.core.st == Readable && !s.closeRequested && s.core.requests == [] && measured.Some?
    case _ => false
  }

  /** A pull is under way when the operation looks; a fulfilled pull is over by then. */
  predicate Busy<V>(s: Stream<V>, op: Op<V>) {
    s.pull.pulling && !op.PullFulfilled?
  }

  /** From `s` to `t` the source has been called once if `pulls`, and else not; `busy` if a pull was under way. */
  predicate Moves<V>(s: Stream<V>, t: Stream<V>, looks: bool, busy: bool) {
    var pulls := looks && Due(t) && !busy;
    && Calls(t.pull.trace) == Calls(s.pull.trace) + (if pulls then 1 else 0)
    && t.pull.pulling == (pulls || busy)
    && t.pull.again == (busy && (s.pull.again || (looks && Due(t))))
  }

  /**
   The source is called once if the operation looks, a pull is due then, and none is under way; if one
   is under way it is remembered that another is wanted. In no other case is it called.
   */
  lemma PulledIff<V>(s: Stream<V>, op: Op<V>)
    requires Sound(s) && Possible(s, op)
    ensures Moves(s, Step(s, op).s, Evaluates(s, op), Busy(s, op))
  {
    AgainIsBusy(s);
    hide Sound, Moves, Due, Evaluates, Read, Enqueue, Evaluate, Fulfil, Reject, CloseCore, ErrorCore, ReleaseCore;
    match op
    case StartFulfilled => LookingMoves(s, s.(pull := s.pull.(started := true, settled := true)));
    case PullFulfilled => FulfilMoves(s);
    case PullRejected(reason) =>
      RejectFollowsProtocol(s.pull);
      Unmoved(s, ErrorInternal(s.(pull := Reject(s.pull)), reason));
    case DefaultRead => ReadMoves(s);
    case EnqueueChunk(chunk, measured) => EnqueueMoves(s, chunk, measured);
    case _ => Unmoved(s, Step(s, op).s);
  }

  lemma AgainIsBusy<V>(s: Stream<V>)
    requires Sound(s)
    ensures s.pull.again ==> s.pull.pulling
    ensures FollowsProtocol(s.pull)
  {
    hide ChunksServed, SettlesInOrder;
  }

  lemma Unmoved<V>(s: Stream<V>, t: Stream<V>)
    requires t.pull.pulling == s.pull.pulling && t.pull.again == s.pull.again
    requires Calls(t.pull.trace) == Calls(s.pull.trace) && (s.pull.again ==> s.pull.pulling)
    ensures Moves(s, t, false, s.pull.pulling)
  {
    hide Calls;
  }

  /** `u` has the flags of `s`; looking at whether a pull is due in it. */
  lemma LookingMoves<V>(s: Stream<V>, u: Stream<V>)
    requires u.pull.pulling == s.pull.pulling && u.pull.again == s.pull.again && u.pull.trace == s.pull.trace
    requires (s.pull.again ==> s.pull.pulling) && (u.core.requests != [] ==> u.core.kind != NoReader)
    ensures Moves(s, PullIfNeeded(u), true, s.pull.pulling)
  {
    hide Calls;
    EvaluateCalls(u.pull, u.core.st, ShouldCallPull(u));
  }

  lemma FulfilMoves<V>(s: Stream<V>)
    requires Sound(s) && s.pull.outstanding
    ensures Moves(s, Step(s, PullFulfilled).s, s.pull.again, false)
  {
    hide ChunksServed, SettlesInOrder, FollowsProtocol, Calls;
    FulfilCalls(s.pull, s.core.st, ShouldCallPull(s));
  }

  lemma ReadMoves<V>(s: Stream<V>)
    requires Sound(s)
    ensures Moves(s, Read(s).s, Evaluates(s, DefaultRead), s.pull.pulling)
  {
    AgainIsBusy(s);
    hide ChunksServed, SettlesInOrder, FollowsProtocol, Calls, Evaluate, Moves;
    var id := s.core.issued;
    var u := s.(core := Issue(s.core));
    if !(s.core.kind == DefaultReader && s.core.st == Readable) {
      Unmoved(s, Read(s).s);
    } else if s.queue != [] {
      var v := u.(queue := s.queue[1..]);
      LookingMoves(s, v);
      SettlingMoves(s, PullIfNeeded(v), Served(id, s.queue[0].0), s.pull.pulling);
    } else {
      LookingMoves(s, u.(core := u.core.(requests := u.core.requests + [id])));
    }
  }

  lemma SettlingMoves<V>(s: Stream<V>, t: Stream<V>, e: Event<V>, busy: bool)
    requires Moves(s, t, true, busy)
    ensures Moves(s, t.(core := Settle(t.core, e)), true, busy)
  {
    hide Calls;
  }

  lemma EnqueueMoves<V>(s: Stream<V>, chunk: V, measured: Option<nat>)
    requires Sound(s)
    ensures Moves(s, Enqueue(s, chunk, measured).s, Evaluates(s, EnqueueChunk(chunk, measured)), s.pull.pulling)
  {
    AgainIsBusy(s);
    EnqueueLooks(s, chunk, measured);
    hide Sound, FollowsProtocol, Calls, Evaluate, Moves, Enqueue, Evaluates, ShouldCallPull;
    if Evaluates(s, EnqueueChunk(chunk, measured)) {
      LookingMoves(s, Queueing(s, chunk, measured));
    } else {
      Unmoved(s, Enqueue(s, chunk, measured).s);
    }
  }

  function Queueing<V>(s: Stream<V>, chunk: V, measured: Option<nat>): Stream<V> {
    var n := if measured.Some? then measured.value else 0;
    s.(queue := s.queue + [(chunk, n)], size := s.size + n, accepted := s.accepted + [chunk],
       entered := s.entered + [(chunk, n)])
  }

  lemma EnqueueLooks<V>(s: Stream<V>, chunk: V, measured: Option<nat>)
    requires Sound(s)
    ensures var t, u := Enqueue(s, chunk, measured).s, Queueing(s, chunk, measured);
            && (if Evaluates(s, EnqueueChunk(chunk, measured)) then t == PullIfNeeded(u) else t.pull == s.pull)
            && u.pull == s.pull && u.core == s.core
    ensures s.core.requests != [] ==> s.core.kind != NoReader
  {
    hide ChunksServed, SettlesInOrder, FollowsProtocol, Evaluate, ShouldCallPull, ErrorCore;
  }


  // ---- What becomes of a read --------------------------------------------------------------------

  /**
   A read takes the next chunk accepted if one has not been handed out; else it waits, on an open stream,
   and ends at once on a closed one; on an errored one it fails with the stream's error.
   */
  lemma ReadGets<V>(s: Stream<V>)
    requires Sound(s) && s.core.kind == DefaultReader
    ensures var r := Read(s);
            var t, id, next := r.s, s.core.issued, |ChunksServed(s.core.log)|;
            && r.ok && t.core.issued == id + 1 && t.core.st == s.core.st && t.accepted == s.accepted
            && match s.core.st
               case Closed => t.core.log == s.core.log + [Ended(id, None)]
               case Errored => s.core.error.Some? && t.core.log == s.core.log + [Failed(id, s.core.error.value)]
               case Readable =>
                 if next < |s.accepted| then t.core.log == s.core.log + [Served(id, s.accepted[next])]
                 else t.core.log == s.core.log && t.core.requests == s.core.requests + [id]
  {
    hide ChunksServed, SettlesInOrder, FollowsProtocol, Evaluate;
    if s.core.st == Readable && s.queue != [] {
      assert Queued(s.queue)[0] == s.queue[0].0;
    }
  }

  // ---- What becomes of the reads that wait -------------------------------------------------------

  /** An accepted chunk goes to the oldest waiting read, else to the queue; without a valid size the stream errors. */
  lemma EnqueueGives<V>(s: Stream<V>, chunk: V, measured: Option<nat>)
    requires Sound(s)
    ensures var r := Enqueue(s, chunk, measured);
            var t := r.s;
            && r.ok == (s.core.st == Readable)
            && if !r.ok then t == s
               else if s.core.requests != [] then
                 && t.core.log == s.core.log + [Served(s.core.requests[0], chunk)]
                 && t.core.requests == s.core.requests[1..]
                 && t.accepted == s.accepted + [chunk] && t.queue == s.queue == [] && t.size == s.size
               else if measured == None then
                 t.core.st == Errored && t.core.error == Some(FromScript(0)) && Untouched(s.core, t.core)
               else
                 && t.core == s.core && t.accepted == s.accepted + [chunk]
                 && t.queue == s.queue + [(chunk, measured.value)] && t.size == s.size + measured.value
  {
    hide ChunksServed, SettlesInOrder, FollowsProtocol, Evaluate;
  }

  /** Closing ends every waiting read at once, with chunks left queued; it is refused unless the stream is open. */
  lemma CloseEndsReads<V>(s: Stream<V>)
    requires Sound(s)
    ensures var r := Close(s);
            && r.ok == (s.core.st == Readable)
            && if !r.ok then r.s == s
               else
                 && r.s.core.st == Closed && r.s.queue == s.queue && r.s.core.kind == s.core.kind
                 && AllSettled(s.core, r.s.core, id => Ended(id, None))
  {
    hide ChunksServed, SettlesInOrder, FollowsProtocol;
    BulkSettlingIs(s.core, ReaderReleased);
  }

  /** Cancelling, refused on a locked stream, closes an open one and drops what is queued. */
  lemma CancelDrops<V>(s: Stream<V>)
    requires Sound(s)
    ensures var r := Cancel(s);
            && r.ok == (s.core.kind == NoReader)
            && (!r.ok || s.core.st != Readable ==> r.s == s)
            && (r.ok && s.core.st == Readable ==>
                  r.s.core.st == Closed && r.s.queue == [] && r.s.size == 0 && Untouched(s.core, r.s.core))
  {
    hide ChunksServed, SettlesInOrder, FollowsProtocol;
  }

  /** Giving up the lock fails every waiting read and leaves the chunks to the next reader. */
  lemma ReleaseFailsReads<V>(s: Stream<V>)
    requires Sound(s)
    ensures var r := ReleaseLock(s);
            && r.ok == (s.core.kind != NoReader)
            && if !r.ok then r.s == s
               else
                 && r.s.core.kind == NoReader && r.s.core.st == s.core.st && r.s.core.error == s.core.error
                 && r.s.queue == s.queue && r.s.size == s.size
                 && AllSettled(s.core, r.s.core, id => Failed(id, ReaderReleased))
  {
    BulkSettlingIs(s.core, ReaderReleased);
  }

  /** The reason that the operation errors an open stream for, if it does. */
  function ErrorOf<V>(op: Op<V>): Option<Reason> {
    match op
    case ErrorStream(reason) => Some(reason)
    case StartRejected(reason) => Some(reason)
    case PullRejected(reason) => Some(reason)
    case _ => None
  }

  /** An error is kept, fails every waiting read with its reason, and drops the queue; later ones change nothing. */
  lemma ErrorFailsReads<V>(s: Stream<V>, op: Op<V>)
    requires Sound(s) && Possible(s, op) && ErrorOf(op).Some?
    ensures var t, reason := Step(s, op).s, ErrorOf(op).value;
            if s.core.st == Readable then
              && t.core.st == Errored && t.core.error == Some(reason) && t.queue == [] && t.size == 0
              && AllSettled(s.core, t.core, id => Failed(id, reason))
            else t == s.(pull := t.pull)
    ensures var t := Step(s, op).s;
            && t.pull.settled == (s.pull.settled || op.StartRejected?) && t.pull.started == s.pull.started
            && t.pull.outstanding == (s.pull.outstanding && !op.PullRejected?)
  {
    hide ChunksServed, SettlesInOrder, FollowsProtocol;
    BulkSettlingIs(s.core, ErrorOf(op).value);
  }

  /** A lock is given to an unlocked stream only, and settles nothing; nor does any promise that is fulfilled. */
  lemma OthersSettleNothing<V>(s: Stream<V>, op: Op<V>)
    requires Sound(s) && Possible(s, op) && (op.AcquireReader? || op.StartFulfilled? || op.PullFulfilled?)
    ensures var r := Step(s, op);
            && r.s == s.(core := r.s.core, pull := r.s.pull)
            && if op.AcquireReader? && s.core.kind == NoReader && op.kind == DefaultReader
               then r.ok && r.s.core == s.core.(kind := DefaultReader)
               else r.s.core == s.core && (op.AcquireReader? ==> !r.ok)
    ensures op.StartFulfilled? ==> Step(s, op).s.pull.started && Step(s, op).s.pull.settled
  {
    hide ChunksServed, SettlesInOrder, FollowsProtocol;
  }

  // ---- Why reads fail ----------------------------------------------------------------------------

  lemma StepIsTold<V>(s: Stream<V>, op: Op<V>)
    requires Sound(s) && FailuresAreTold(s.core) && Possible(s, op)
    ensures FailuresAreTold(Step(s, op).s.core)
  {
    hide ChunksServed, SettlesInOrder, FollowsProtocol, Evaluate, Fulfil, Reject;
    var t := Step(s, op).s;
    match op
    case Release => BulkSettlingIsTold(s.core, ReaderReleased);
    case CancelStream => BulkSettlingIsTold(s.core, ReaderReleased);
    case CloseStream => BulkSettlingIsTold(s.core, ReaderReleased);
    case ErrorStream(reason) => BulkSettlingIsTold(s.core, reason);
    case StartRejected(reason) => BulkSettlingIsTold(s.core, reason);
    case PullRejected(reason) => BulkSettlingIsTold(s.core, reason);
    case EnqueueChunk(_, _) => BulkSettlingIsTold(s.core, FromScript(0));
    case DefaultRead => if s.core.kind == DefaultReader { ReadGets(s); }
    case _ =>
  }

  /** On every run a read that fails does so for its stream's error, or because its reader was released. */
  lemma {:induction false} EveryFailureIsTold<V>(s: Stream<V>, ops: seq<Op<V>>)
    requires Sound(s) && FailuresAreTold(s.core)
    ensures FailuresAreTold(Run(s, ops).core)
    decreases |ops|
  {
    hide Sound, Step, Possible, FailuresAreTold;
    if ops != [] {
      if !Possible(s, ops[0]) {
        EveryFailureIsTold(s, ops[1..]);
      } else {
        StepKeepsSound(s, ops[0]);
        StepIsTold(s, ops[0]);
        EveryFailureIsTold(Step(s, ops[0]).s, ops[1..]);
      }
    }
  }
}
