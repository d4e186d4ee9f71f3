/** What a tee brings about: the end of the original reaches the branches, and a branch's pull reads once. */
module TeeEffects {
  import opened StreamCore
  import opened Wrappers
  import opened PullProtocol
  import opened DefaultStream
  import opened DefaultEffects
  import opened TeeStream

  // ---- The end of the original -------------------------------------------------------------------

  /** Every branch that has not been cancelled is closed, and no read waits on it. */
  predicate BranchesEnded<V>(t: Tee<V>) {
    && (!t.cancelled1 ==> t.branch1.core.st == Closed && t.branch1.core.requests == [])
    && (!t.cancelled2 ==> t.branch2.core.st == Closed && t.branch2.core.requests == [])
  }

  /** From `t` to `u` the original has settled the tee's read with its end. */
  ghost predicate SettledByEnd<V>(t: Tee<V>, u: Tee<V>) {
    |u.original.core.log| > |t.original.core.log| && u.original.core.log[|t.original.core.log|].Ended?
  }

  lemma ReactFlags<V>(t: Tee<V>, e: Event<V>)
    ensures var u := React(t, e);
            && u.original == t.original && u.failed == t.failed
            && u.cancelled1 == t.cancelled1 && u.cancelled2 == t.cancelled2
            && (e.Ended? || t.ended ==> u.ended)
  {
    hide Close;
    match e
    case Served(_, _) =>
    case Ended(_, _) =>
    case Failed(_, _) =>
  }

  lemma MovedEnds<V>(t: Tee<V>, original: Stream<V>)
    ensures var u := OriginalMoved(t, original);
            && u.original == original && u.failed == t.failed
            && u.cancelled1 == t.cancelled1 && u.cancelled2 == t.cancelled2
            && (SettledByEnd(t, t.(original := original)) || t.ended ==> u.ended)
  {
    hide React;
    if |original.core.log| > |t.original.core.log| {
      ReactFlags(t.(original := original), original.core.log[|t.original.core.log|]);
    }
  }


  lemma PullEnds<V>(t: Tee<V>, second: bool)
    ensures SettledByEnd(t, TeeStream.Pull(t, second)) ==> TeeStream.Pull(t, second).ended
    ensures t.ended ==> TeeStream.Pull(t, second).ended
  {
    hide OriginalMoved, Read;
    if !t.reading { MovedEnds(t.(reading := true, asker2 := second), Read(t.original).s); }
  }

  lemma BranchMovedEnds<V>(t: Tee<V>, second: bool, branch: Stream<V>)
    ensures SettledByEnd(t, BranchMoved(t, second, branch)) ==> BranchMoved(t, second, branch).ended
    ensures t.ended ==> BranchMoved(t, second, branch).ended
    ensures t.reading ==> BranchMoved(t, second, branch).original == t.original
  {
    hide TeeStream.Pull, Calls;
    var moved := if second then t.(branch2 := branch) else t.(branch1 := branch);
    PullEnds(moved, second);
    if t.reading { BusyPull(moved, second); }
  }

  lemma HandOverEnds<V>(t: Tee<V>, chunk: V)
    requires t.reading
    ensures SettledByEnd(t, HandOver(t, chunk)) ==> HandOver(t, chunk).ended
    ensures t.ended ==> HandOver(t, chunk).ended
  {
    hide TeeStream.Pull, BranchMoved, Enqueue;
    var b1, b2 := Enqueue(t.branch1, chunk, Some(1)).s, Enqueue(t.branch2, chunk, Some(1)).s;
    BranchMovedEnds(t, false, b1);
    var u := if t.cancelled1 then t else BranchMoved(t, false, b1);
    BranchMovedKeepsReading(t, false, b1);
    BranchMovedEnds(u, true, Enqueue(u.branch2, chunk, Some(1)).s);
    var v := GiveToBoth(t, chunk).(reading := false);
    PullEnds(v, v.asker2);
  }

  lemma BranchMovedKeepsReading<V>(t: Tee<V>, second: bool, branch: Stream<V>)
    requires t.reading
    ensures BranchMoved(t, second, branch).reading
  {
    hide TeeStream.Pull, Calls;
    BusyPull(if second then t.(branch2 := branch) else t.(branch1 := branch), second);
  }

  lemma StepEnds<V>(t: Tee<V>, op: TeeOp<V>)
    requires TeeSound(t) && TeePossible(t, op)
    ensures SettledByEnd(t, TeeStep(t, op)) ==> TeeStep(t, op).ended
    ensures t.ended ==> TeeStep(t, op).ended
  {
    DeferredIsReading(t);
    hide TeeSound, OriginalMoved, BranchMoved, CancelBranch, HandOver, Step;
    match op
    case OnOriginal(o) => MovedEnds(t, Step(t.original, o).s);
    case OnBranch(second, o) =>
      if o.CancelStream? {
        CancelLeavesEnd(t, second);
      } else {
        BranchMovedEnds(t, second, Step(if second then t.branch2 else t.branch1, o).s);
      }
    case DeliverChunk(_) => HandOverEnds(t.(readAgain := false, deferred := None), t.deferred.value);
  }

  lemma DeferredIsReading<V>(t: Tee<V>)
    requires TeeSound(t)
    ensures t.deferred.Some? ==> t.reading
  {
    hide Sound, InStep, ReadSoFar, ChunksServed;
  }

  lemma CancelLeavesEnd<V>(t: Tee<V>, second: bool)
    ensures CancelBranch(t, second).original == t.original && CancelBranch(t, second).ended == t.ended
  {
    hide Cancel;
  }

  lemma EndedIsEnded<V>(t: Tee<V>)
    requires TeeSound(t) && t.ended
    ensures BranchesEnded(t)
  {
    hide ReadSoFar, ChunksServed, SettlesInOrder, FollowsProtocol;
  }

  /** When the original's end settles the tee's read, every branch not cancelled is closed and its reads are over. */
  lemma EndReachesBranches<V>(t: Tee<V>, op: TeeOp<V>)
    requires TeeSound(t) && TeePossible(t, op) && SettledByEnd(t, TeeStep(t, op))
    ensures BranchesEnded(TeeStep(t, op))
  {
    hide TeeSound, TeeStep, TeePossible, SettledByEnd, BranchesEnded;
    StepEnds(t, op);
    TeeStepKeeps(t, op);
    EndedIsEnded(TeeStep(t, op));
  }

  ghost predicate ClosedBy<V>(before: Stream<V>, after: Stream<V>) {
    after.core.st == Closed && AllSettled(before.core, after.core, id => Ended(id, None)) && after.queue == before.queue
  }

  /** The source closes the original while the tee's read waits: the branches' waiting reads end, oldest first. */
  lemma CloseReachesBranches<V>(t: Tee<V>)
    requires TeeSound(t) && t.original.core.st == Readable && t.original.core.requests != []
    ensures var u := TeeStep(t, OnOriginal(CloseStream));
            && u.original.core.st == Closed && SettledByEnd(t, u) && !u.reading
            && (if t.cancelled1 then u.branch1 == t.branch1 else ClosedBy(t.branch1, u.branch1))
            && (if t.cancelled2 then u.branch2 == t.branch2 else ClosedBy(t.branch2, u.branch2))
  {
    WaitingTee(t);
    OneReadEnds(t.original);
    if !t.cancelled1 { OpenBranchEnds(t.branch1); }
    if !t.cancelled2 { OpenBranchEnds(t.branch2); }
    ClosingStep(t);
    hide TeeSound, Sound, Close, OriginalMoved, ClosedBy, TeeStep;
    EndMoves(t, Close(t.original).s, Ended(t.original.core.requests[0], None));
  }

  lemma ClosingStep<V>(t: Tee<V>)
    ensures TeePossible(t, OnOriginal(CloseStream))
    ensures TeeStep(t, OnOriginal(CloseStream)) == OriginalMoved(t, Close(t.original).s)
  {
    hide Close, OriginalMoved;
  }

  lemma OneReadEnds<V>(s: Stream<V>)
    requires Sound(s) && s.core.st == Readable && |s.core.requests| == 1
    ensures var t := Close(s).s; t.core.st == Closed && t.core.log == s.core.log + [Ended(s.core.requests[0], None)]
  {
    CloseEndsReads(s);
    hide Sound, Close;
    var log := Close(s).s.core.log;
    assert log[|s.core.log| + 0] == Ended(s.core.requests[0], None);
    assert log == log[..|s.core.log|] + [log[|s.core.log|]];
  }

  lemma OpenBranchEnds<V>(b: Stream<V>)
    requires Sound(b) && b.core.st == Readable
    ensures ClosedBy(b, Close(b).s)
  {
    CloseEndsReads(b);
    hide Sound, Close, AllSettled;
  }


  lemma EndMoves<V>(t: Tee<V>, original: Stream<V>, e: Event<V>)
    requires original.core.log == t.original.core.log + [e] && e.Ended?
    ensures OriginalMoved(t, original) ==
            t.(original := original, reading := false, ended := true,
               branch1 := if t.cancelled1 then t.branch1 else Close(t.branch1).s,
               branch2 := if t.cancelled2 then t.branch2 else Close(t.branch2).s)
  {
    hide Close;
  }

  lemma WaitingTee<V>(t: Tee<V>)
    requires TeeSound(t) && t.original.core.requests != []
    ensures Sound(t.original) && Sound(t.branch1) && Sound(t.branch2) && t.original.core.kind == DefaultReader
    ensures |t.original.core.requests| == 1
    ensures !t.cancelled1 ==> t.branch1.core.st == Readable
    ensures !t.cancelled2 ==> t.branch2.core.st == Readable
  {
    hide Sound, ReadSoFar, ChunksServed;
  }

  // ---- One read for each pull --------------------------------------------------------------------

  function CallsOf<V>(b: Stream<V>): nat {
    Calls(b.pull.trace)
  }

  /** A branch has called its source's `pull`. */
  predicate Pulled<V>(t: Tee<V>, u: Tee<V>) {
    CallsOf(u.branch1) > CallsOf(t.branch1) || CallsOf(u.branch2) > CallsOf(t.branch2)
  }

  lemma ReadIssues<V>(s: Stream<V>)
    requires s.core.kind == DefaultReader
    ensures Read(s).s.core.issued == s.core.issued + 1
  {
    hide Evaluate;
  }

  /** The same calls, and the same requests to read again. */
  predicate SameCalls<V>(t: Tee<V>, u: Tee<V>) {
    && u.branch1.pull == t.branch1.pull && u.branch2.pull == t.branch2.pull
    && u.readAgain == t.readAgain && u.asker2 == t.asker2
  }

  lemma ReactLeavesCalls<V>(t: Tee<V>, e: Event<V>)
    ensures SameCalls(t, React(t, e)) && React(t, e).original == t.original
  {
    CloseLeavesPull(t.branch1);
    CloseLeavesPull(t.branch2);
    hide Close;
    match e
    case Served(_, _) =>
    case Ended(_, _) =>
    case Failed(_, _) =>
  }

  lemma MoveLeavesCalls<V>(t: Tee<V>, original: Stream<V>)
    ensures SameCalls(t, OriginalMoved(t, original)) && OriginalMoved(t, original).original == original
  {
    hide React;
    if |original.core.log| > |t.original.core.log| {
      ReactLeavesCalls(t.(original := original), original.core.log[|t.original.core.log|]);
    }
  }


  lemma CloseLeavesPull<V>(b: Stream<V>)
    ensures Close(b).s.pull == b.pull
  {
  }

  /** A pull reads the original if no read is in flight, and else asks to read again. */
  lemma PullReads<V>(t: Tee<V>, second: bool)
    requires t.original.core.kind == DefaultReader
    ensures var u := TeeStream.Pull(t, second);
            && CallsOf(u.branch1) == CallsOf(t.branch1) && CallsOf(u.branch2) == CallsOf(t.branch2)
            && u.original.core.issued == t.original.core.issued + (if t.reading then 0 else 1)
            && u.readAgain == (t.reading || t.readAgain)
            && u.asker2 == (if t.reading then t.asker2 else second)
            && u.original.core.kind == DefaultReader
  {
    hide OriginalMoved, Read, Calls;
    if !t.reading {
      ReadIssues(t.original);
      ReadKeepsLock(t.original);
      MoveLeavesCalls(t.(reading := true, asker2 := second), Read(t.original).s);
    }
  }

  lemma ReadKeepsLock<V>(s: Stream<V>)
    ensures Read(s).s.core.kind == s.core.kind
  {
    hide Evaluate;
  }

  lemma BranchMovedReads<V>(t: Tee<V>, second: bool, branch: Stream<V>)
    requires t.original.core.kind == DefaultReader
    ensures var u, before := BranchMoved(t, second, branch), if second then t.branch2 else t.branch1;
            var pulled := CallsOf(branch) > CallsOf(before);
            && CallsOf(u.branch1) == CallsOf(if second then t.branch1 else branch)
            && CallsOf(u.branch2) == CallsOf(if second then branch else t.branch2)
            && u.original.core.issued == t.original.core.issued + (if pulled && !t.reading then 1 else 0)
            && u.readAgain == (t.readAgain || (pulled && t.reading)) && u.original.core.kind == DefaultReader
  {
    hide TeeStream.Pull, Calls;
    PullReads(if second then t.(branch2 := branch) else t.(branch1 := branch), second);
  }

  lemma LockOfTee<V>(t: Tee<V>)
    requires TeeSound(t)
    ensures t.original.core.kind == DefaultReader
    ensures t.original.core.requests == [] && t.deferred == None && !t.failed ==> !t.reading
    ensures Sound(t.original) && Sound(t.branch1) && Sound(t.branch2)
  {
    hide Sound, ReadSoFar, ChunksServed;
  }

  /**
   A call on a branch makes the tee read the original once if the branch calls its `pull` and no read is in
   flight; with one in flight the tee is asked to read again. Otherwise the original is left alone.
   */
  lemma BranchReadsOnce<V>(t: Tee<V>, second: bool, o: Op<V>)
    requires TeeSound(t) && TeePossible(t, OnBranch(second, o)) && !o.CancelStream?
    ensures var u := TeeStep(t, OnBranch(second, o));
            && u.original.core.issued == t.original.core.issued + (if Pulled(t, u) && !t.reading then 1 else 0)
            && u.readAgain == (t.readAgain || (Pulled(t, u) && t.reading))
  {
    LockOfTee(t);
    hide TeeSound, Sound, Step, BranchMoved, Possible, CallsOf, BranchOp;
    BranchMovedReads(t, second, Step(if second then t.branch2 else t.branch1, o).s);
  }

  /**
   The chunk read is handed over, and the original read once more if that made a branch call its `pull`;
   what was asked for earlier is forgotten. If the chunk cannot be cloned nothing is read.
   */
  lemma HandOverReadsOnce<V>(t: Tee<V>, cloneFails: bool)
    requires TeeSound(t) && t.deferred.Some?
    ensures var u := TeeStep(t, DeliverChunk(cloneFails));
            u.original.core.issued == t.original.core.issued + (if !u.failed && Pulled(t, u) then 1 else 0)
  {
    LockOfTee(t);
    DeferredIsReading(t);
    DeferredHasNotFailed(t);
    hide TeeSound, Sound, HandOver, Pulled, ErrorInternal;
    if t.cancelled2 || !t.cloneBranch2 || !cloneFails {
      HandOverReads(t.(readAgain := false, deferred := None), t.deferred.value);
      PulledIgnoresFlags(t, t.(readAgain := false, deferred := None), TeeStep(t, DeliverChunk(cloneFails)));
    }
  }

  lemma PulledIgnoresFlags<V>(t: Tee<V>, t': Tee<V>, u: Tee<V>)
    requires t'.branch1 == t.branch1 && t'.branch2 == t.branch2
    ensures Pulled(t', u) == Pulled(t, u)
  {
  }

  lemma HandOverReads<V>(t: Tee<V>, chunk: V)
    requires t.original.core.kind == DefaultReader && t.reading && !t.readAgain
    ensures var u := HandOver(t, chunk);
            && u.failed == t.failed
            && u.original.core.issued == t.original.core.issued + (if Pulled(t, u) then 1 else 0)
  {
    hide GiveToBoth, CallsOf, TeeStream.Pull;
    BothGiven(t, chunk);
    var u := GiveToBoth(t, chunk).(reading := false);
    PullReads(u, u.asker2);
    PullKeepsFailed(u, u.asker2);
  }

  lemma BothGiven<V>(t: Tee<V>, chunk: V)
    requires t.original.core.kind == DefaultReader && t.reading && !t.readAgain
    ensures var u := GiveToBoth(t, chunk);
            && u.original == t.original && u.failed == t.failed && u.readAgain == Pulled(t, u)
  {
    hide BranchMoved, CallsOf, Enqueue;
    var b1 := Enqueue(t.branch1, chunk, Some(1)).s;
    var u := if t.cancelled1 then t else BranchMoved(t, false, b1);
    BranchMovedReads(t, false, b1);
    BranchMovedEnds(t, false, b1);
    BranchMovedKeepsReading(t, false, b1);
    BusyFlags(t, false, b1);
    var b2 := Enqueue(u.branch2, chunk, Some(1)).s;
    BranchMovedReads(u, true, b2);
    BranchMovedEnds(u, true, b2);
    BusyFlags(u, true, b2);
    ChunkAddsCalls(t.branch1, chunk);
    ChunkAddsCalls(u.branch2, chunk);
  }


  lemma DeferredHasNotFailed<V>(t: Tee<V>)
    requires TeeSound(t) && t.deferred.Some?
    ensures !t.failed
  {
    hide Sound, InStep, ReadSoFar, ChunksServed;
  }

  /** While a read is in flight a branch's move changes no more than the branch and the request to read again. */
  lemma BusyFlags<V>(t: Tee<V>, second: bool, branch: Stream<V>)
    requires t.reading
    ensures var u := BranchMoved(t, second, branch);
            && u.failed == t.failed && u.cancelled1 == t.cancelled1 && u.cancelled2 == t.cancelled2
            && u.branch1 == (if second then t.branch1 else branch)
            && u.branch2 == (if second then branch else t.branch2)
  {
    hide TeeStream.Pull, Calls;
    BusyPull(if second then t.(branch2 := branch) else t.(branch1 := branch), second);
  }

  lemma PullKeepsFailed<V>(t: Tee<V>, second: bool)
    ensures TeeStream.Pull(t, second).failed == t.failed
  {
    hide Read, OriginalMoved;
    MovedEnds(t.(reading := true, asker2 := second), Read(t.original).s);
  }


  lemma ChunkAddsCalls<V>(b: Stream<V>, chunk: V)
    ensures CallsOf(Enqueue(b, chunk, Some(1)).s) >= CallsOf(b)
  {
    var u := b.(queue := b.queue + [(chunk, 1)], size := b.size + 1, accepted := b.accepted + [chunk],
                entered := b.entered + [(chunk, 1)]);
    EvaluateCalls(u.pull, u.core.st, ShouldCallPull(u));
    hide Calls, Evaluate;
  }

  // ---- A branch that pulls after the end ---------------------------------------------------------

  /** The original is closed, and every chunk read from it has been handed over. */
  predicate AtEnd<V>(t: Tee<V>) {
    t.original.core.st == Closed && t.deferred == None && !t.failed
  }

  lemma AtEndIsIdle<V>(t: Tee<V>)
    requires TeeSound(t) && AtEnd(t)
    ensures !t.reading && t.original.core.requests == [] && t.original.core.kind == DefaultReader
  {
    hide SettlesInOrder, FollowsProtocol, ReadSoFar, ChunksServed, InStep;
  }

  lemma ClosedRead<V>(s: Stream<V>)
    requires s.core.st == Closed && s.core.kind == DefaultReader
    ensures var t := Read(s).s; t.core.st == Closed && t.core.log == s.core.log + [Ended(s.core.issued, None)]
  {
  }

  lemma PullAtEnd<V>(t: Tee<V>, second: bool)
    requires AtEnd(t) && !t.reading && t.original.core.kind == DefaultReader
    ensures TeeStream.Pull(t, second).ended && AtEnd(TeeStream.Pull(t, second))
  {
    hide Close, OriginalMoved;
    ClosedRead(t.original);
    EndMoves(t.(reading := true, asker2 := second), Read(t.original).s, Ended(t.original.core.issued, None));
  }

  lemma StepAtEnd<V>(t: Tee<V>, op: TeeOp<V>)
    requires TeeSound(t) && AtEnd(t) && TeePossible(t, op)
    ensures AtEnd(TeeStep(t, op))
    ensures Pulled(t, TeeStep(t, op)) ==> TeeStep(t, op).ended
  {
    AtEndIsIdle(t);
    LockOfTee(t);
    hide TeeSound, Sound, Step, Possible, OriginalMoved, BranchMoved, CancelBranch, OriginalOp, BranchOp, CallsOf;
    match op
    case OnOriginal(o) =>
      ClosedIsLeftAlone(t.original, o);
      UnsettledMove(t, Step(t.original, o).s);
    case OnBranch(second, o) =>
      if o.CancelStream? {
        CancelAtEnd(t, second);
      } else {
        BranchAtEnd(t, second, Step(if second then t.branch2 else t.branch1, o).s);
      }
    case DeliverChunk(_) => assert false;
  }

  lemma ClosedIsLeftAlone<V>(s: Stream<V>, o: Op<V>)
    requires Sound(s) && s.core.st == Closed && s.core.requests == [] && OriginalOp(o) && Possible(s, o)
    ensures Step(s, o).s.core.log == s.core.log && Step(s, o).s.core.st == Closed
  {
    OriginalStepSettlesOne(s, o);
    FinalStates(s, o);
    hide ChunksServed, FollowsProtocol, SettlesInOrder, Evaluate, Fulfil, SettlesOne;
  }

  lemma CancelAtEnd<V>(t: Tee<V>, second: bool)
    requires AtEnd(t)
    ensures var u := CancelBranch(t, second); AtEnd(u) && !Pulled(t, u)
  {
    hide Calls;
  }

  lemma BranchAtEnd<V>(t: Tee<V>, second: bool, branch: Stream<V>)
    requires AtEnd(t) && !t.reading && t.original.core.kind == DefaultReader
    ensures var u := BranchMoved(t, second, branch); AtEnd(u) && (Pulled(t, u) ==> u.ended)
  {
    hide TeeStream.Pull, Calls;
    PullAtEnd(if second then t.(branch2 := branch) else t.(branch1 := branch), second);
  }

  lemma {:induction false} EndedRun<V>(t: Tee<V>, ops: seq<TeeOp<V>>)
    requires TeeSound(t) && AtEnd(t)
    ensures var u := TeeRun(t, ops);
            && AtEnd(u) && (Pulled(t, u) || t.ended ==> u.ended && BranchesEnded(u))
    decreases |ops|
  {
    hide TeeSound, AtEnd, TeeStep, TeePossible, BranchesEnded, CallsOf;
    if ops == [] {
      if t.ended { EndedIsEnded(t); }
    } else if !TeePossible(t, ops[0]) {
      EndedRun(t, ops[1..]);
    } else {
      var next := TeeStep(t, ops[0]);
      TeeStepKeeps(t, ops[0]);
      StepAtEnd(t, ops[0]);
      StepEnds(t, ops[0]);
      EndedRun(next, ops[1..]);
    }
  }

  /**
   Once the original has closed and all read from it has been handed over, it stays so, and as soon as one
   branch calls its `pull` both are closed for the rest of the run, unless cancelled, and no read waits.
   */
  lemma EndReachesPullers<V>(t: Tee<V>, ops: seq<TeeOp<V>>)
    requires TeeSound(t) && AtEnd(t)
    ensures var u := TeeRun(t, ops);
            AtEnd(u) && (Pulled(t, u) ==> BranchesEnded(u))
  {
    hide TeeSound, AtEnd, TeeRun, BranchesEnded, Pulled;
    EndedRun(t, ops);
  }

  /** A new branch has room for one chunk, and so is pulled for as soon as it has started. */
  lemma NewBranchPulls<V>()
    ensures var b := NewStream<V>(Finite(1.0));
            Possible(b, StartFulfilled) && CallsOf(Step(b, StartFulfilled).s) == CallsOf(b) + 1
  {
    NewIsSound<V>(Finite(1.0));
    PulledIff(NewStream<V>(Finite(1.0)), StartFulfilled);
    hide Sound, Calls, Evaluate;
  }

  /** A branch of a new tee reads the original as soon as its source has started. */
  lemma NewTeeReads<V>(original: Stream<V>, cloneBranch2: bool, second: bool)
    requires DefaultStream.Sound(original) && original.core.kind == DefaultReader && original.core.requests == []
    ensures var t := NewTee(original, cloneBranch2);
            && TeePossible(t, OnBranch(second, StartFulfilled))
            && TeeStep(t, OnBranch(second, StartFulfilled)).original.core.issued == original.core.issued + 1
  {
    var t, b := NewTee(original, cloneBranch2), NewStream<V>(Finite(1.0));
    NewBranchPulls<V>();
    hide Sound, Step, Possible, BranchMoved, CallsOf, NewStream, ChunksServed;
    BranchMovedReads(t, second, Step(b, StartFulfilled).s);
  }
}
