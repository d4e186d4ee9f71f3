/**
 Teeing a stream that has a default controller: the original, locked by the tee's reader, and two
 branch streams whose source is the shared TeeDefaultState. A chunk read from the original reaches
 the branches in a later microtask, so anything may happen in between.
 */
module TeeStream {
  import opened StreamCore
  import opened Wrappers
  import opened PullProtocol
  import opened DefaultStream

  /** `deferred` is a chunk read and not yet given to the branches, with the branch that asked. */
  datatype Tee<V> = Tee(
    original: Stream<V>,
    branch1: Stream<V>,
    branch2: Stream<V>,
    reading: bool,
    readAgain: bool,
    cancelled1: bool,
    cancelled2: bool,
    cloneBranch2: bool,
    asker2: bool,
    deferred: Option<V>,
    ended: bool,     // the original's end has been passed on to the branches
    failed: bool,    // a chunk could not be cloned for the second branch
    skipped: nat)    // chunks served by the original before it was teed

  /** tee_internal on a stream that has just been given its reader. */
  function NewTee<V>(original: Stream<V>, cloneBranch2: bool): Tee<V> {
    var branch := NewStream(Finite(1.0));
    Tee(original, branch, branch, false, false, false, false, cloneBranch2, false, None, false, false,
        |ChunksServed(original.core.log)|)
  }

  /** How the tee's request reacts to being settled by the original. */
  function React<V>(t: Tee<V>, e: Event<V>): Tee<V> {
    match e
    case Served(_, chunk) => t.(deferred := Some(chunk))
    case Ended(_, _) =>
      t.(reading := false, ended := true,
         branch1 := if t.cancelled1 then t.branch1 else Close(t.branch1).s,
         branch2 := if t.cancelled2 then t.branch2 else Close(t.branch2).s)
    case Failed(_, _) => t.(reading := false)
  }

  /** The tee's state after the original has moved; the log grows when the tee's read is settled. */
  function OriginalMoved<V>(t: Tee<V>, original: Stream<V>): Tee<V> {
    var moved := t.(original := original);
    if |original.core.log| > |t.original.core.log| then React(moved, original.core.log[|t.original.core.log|])
    else moved
  }

  /** StreamSource::pull for a branch. */
  function Pull<V>(t: Tee<V>, second: bool): Tee<V> {
    if t.reading then t.(readAgain := true)
    else OriginalMoved(t.(reading := true, asker2 := second), Read(t.original).s)
  }

  /** The branch has called its source's `pull` if its call count has grown. */
  function BranchMoved<V>(t: Tee<V>, second: bool, branch: Stream<V>): Tee<V> {
    var before := if second then t.branch2 else t.branch1;
    var moved := if second then t.(branch2 := branch) else t.(branch1 := branch);
    if Calls(branch.pull.trace) > Calls(before.pull.trace) then Pull(moved, second) else moved
  }

  function GiveToBoth<V>(t: Tee<V>, chunk: V): Tee<V> {
    var t := if t.cancelled1 then t
             else BranchMoved(t, false, Enqueue(t.branch1, chunk, Some(1)).s);
    if t.cancelled2 then t
    else BranchMoved(t, true, Enqueue(t.branch2, chunk, Some(1)).s)
  }

  /** The deferred step: the chunk goes to every branch that has not been cancelled. */
  function ChunkStep<V>(t: Tee<V>, cloneFails: bool): Tee<V>
    requires t.deferred.Some?
  {
    var chunk := t.deferred.value;
    var t := t.(readAgain := false, deferred := None);
    if !t.cancelled2 && t.cloneBranch2 && cloneFails then FailBoth(t) else HandOver(t, chunk)
  }

  function FailBoth<V>(t: Tee<V>): Tee<V> {
    t.(branch1 := ErrorInternal(t.branch1, FromScript(0)),
       branch2 := ErrorInternal(t.branch2, FromScript(0)), failed := true)
  }

  /** Both branches have the chunk; another read follows if one was asked for in the meantime. */
  function HandOver<V>(t: Tee<V>, chunk: V): Tee<V> {
    var t := GiveToBoth(t, chunk).(reading := false);
    if t.readAgain then Pull(t, t.asker2) else t
  }

  /** ReadableStream::cancel on a branch marks it cancelled in the shared state. */
  function CancelBranch<V>(t: Tee<V>, second: bool): Tee<V> {
    if second then
      var r := Cancel(t.branch2);
      t.(branch2 := r.s, cancelled2 := t.cancelled2 || (r.ok && t.branch2.core.st == Readable))
    else
      var r := Cancel(t.branch1);
      t.(branch1 := r.s, cancelled1 := t.cancelled1 || (r.ok && t.branch1.core.st == Readable))
  }

  /** What scripts and promise reactions can do: the source of the original, and users of the branches. */
  datatype TeeOp<V> =
    | OnOriginal(op: Op<V>)
    | OnBranch(second: bool, op: Op<V>)
    | DeliverChunk(cloneFails: bool)

  predicate OriginalOp<V>(op: Op<V>) {
    !op.AcquireReader? && !op.Release? && !op.CancelStream? && !op.DefaultRead?
  }

  predicate BranchOp<V>(op: Op<V>) {
    op.AcquireReader? || op.Release? || op.CancelStream? || op.DefaultRead? || op.StartFulfilled? || op.PullFulfilled?
  }

  predicate TeePossible<V>(t: Tee<V>, op: TeeOp<V>) {
    match op
    case OnOriginal(o) => OriginalOp(o) && Possible(t.original, o)
    case OnBranch(second, o) => BranchOp(o) && Possible(if second then t.branch2 else t.branch1, o)
    case DeliverChunk(_) => t.deferred.Some?
  }

  function TeeStep<V>(t: Tee<V>, op: TeeOp<V>): Tee<V>
    requires TeePossible(t, op)
  {
    match op
    case OnOriginal(o) => OriginalMoved(t, Step(t.original, o).s)
    case OnBranch(second, o) =>
      if o.CancelStream? then CancelBranch(t, second)
      else BranchMoved(t, second, Step(if second then t.branch2 else t.branch1, o).s)
    case DeliverChunk(cloneFails) => ChunkStep(t, cloneFails)
  }

  function TeeRun<V>(t: Tee<V>, ops: seq<TeeOp<V>>): Tee<V>
    decreases |ops|
  {
    if ops == [] then t
    else if !TeePossible(t, ops[0]) then TeeRun(t, ops[1..])
    else TeeRun(TeeStep(t, ops[0]), ops[1..])
  }

  // ---- Invariant ---------------------------------------------------------------------------------

  /** The chunks read from the original since it was teed. */
  function ReadSoFar<V>(t: Tee<V>): seq<V> {
    var served := ChunksServed(t.original.core.log);
    if t.skipped <= |served| then served[t.skipped..] else []
  }

  function Pending<V>(t: Tee<V>): seq<V> {
    if t.deferred.Some? then [t.deferred.value] else []
  }

  /** A branch in step: it has been given every chunk read, up to the one still deferred. */
  ghost predicate InStep<V>(
      branch: Stream<V>, cancelled: bool, ended: bool, failed: bool, read: seq<V>, pending: seq<V>)
  {
    && Sound(branch)
    && branch.accepted <= read
    && (cancelled ==> branch.core.st == Closed)
    && (!cancelled && failed ==> branch.core.st == Errored)
    && (!cancelled && !failed ==>
          branch.accepted + pending == read && (if ended then branch.core.st == Closed else branch.core.st == Readable))
  }

  ghost predicate TeeSound<V>(t: Tee<V>) {
    && Sound(t.original) && t.original.core.kind == DefaultReader
    && t.skipped <= |ChunksServed(t.original.core.log)|
    && InStep(t.branch1, t.cancelled1, t.ended, t.failed, ReadSoFar(t), Pending(t))
    && InStep(t.branch2, t.cancelled2, t.ended, t.failed, ReadSoFar(t), Pending(t))
    && |t.original.core.requests| <= 1
    && (t.reading <==> t.original.core.requests != [] || t.deferred.Some? || t.failed)
    && (t.original.core.requests != [] ==> t.deferred == None && !t.failed)
    && (t.failed ==> t.deferred == None)
    && (t.ended ==> !t.reading)
  }

  // ---- Steps of the original -----------------------------------------------------------------------

  /** One step of the original settles the tee's read or leaves it; it never settles two. */
  ghost predicate SettlesOne<V>(s: Stream<V>, s': Stream<V>) {
    && s'.core.kind == s.core.kind
    && (if |s'.core.log| > |s.core.log| then
          s'.core.requests == [] && s'.core.log == s.core.log + [s'.core.log[|s.core.log|]]
        else
          s'.core.log == s.core.log)
  }

  lemma OriginalStepSettlesOne<V>(s: Stream<V>, op: Op<V>)
    requires Sound(s) && |s.core.requests| <= 1 && OriginalOp(op) && Possible(s, op)
    ensures var s' := Step(s, op).s;
            && SettlesOne(s, s')
            && (|s'.core.log| > |s.core.log| ==> s.core.requests != [])
            && (|s'.core.log| == |s.core.log| ==> s'.core.requests == s.core.requests)
  {
    hide ChunksServed, FollowsProtocol, SettlesInOrder, Evaluate, Fulfil;
  }

  lemma ReadSettlesOne<V>(s: Stream<V>)
    requires Sound(s) && s.core.requests == [] && s.core.kind == DefaultReader
    ensures var s' := Read(s).s;
            && SettlesOne(s, s')
            && (|s'.core.log| == |s.core.log| ==> |s'.core.requests| == 1)
  {
    hide ChunksServed, FollowsProtocol, SettlesInOrder, Evaluate;
  }

  lemma BranchAwaits<V>(b: Stream<V>, cancelled: bool, read: seq<V>, chunk: V)
    requires InStep(b, cancelled, false, false, read, [])
    ensures InStep(b, cancelled, false, false, read + [chunk], [chunk])
  {
    hide Sound;
    assert b.accepted + [] == b.accepted;
  }

  lemma BranchEnds<V>(b: Stream<V>, cancelled: bool, read: seq<V>)
    requires InStep(b, cancelled, false, false, read, [])
    ensures InStep(if cancelled then b else Close(b).s, cancelled, true, false, read, [])
  {
    assert !cancelled ==> CanCloseOrEnqueue(b);
    hide Sound;
    CloseKeeps(b);
  }

  lemma ReadSoFarGrows<V>(t: Tee<V>, t': Tee<V>, e: Event<V>)
    requires t.skipped <= |ChunksServed(t.original.core.log)| && t'.skipped == t.skipped
    requires t'.original.core.log == t.original.core.log + [e]
    ensures ReadSoFar(t') == ReadSoFar(t) + (if e.Served? then [e.view] else [])
    ensures t'.skipped <= |ChunksServed(t'.original.core.log)|
  {
    hide ChunksServed;
    ServedPush(t.original.core.log, e);
  }

  lemma ReadSoFarStays<V>(t: Tee<V>, t': Tee<V>)
    requires t'.skipped == t.skipped && t'.original.core.log == t.original.core.log
    ensures ReadSoFar(t') == ReadSoFar(t)
  {
  }

  /** The original settles the tee's read: with a chunk, which is deferred, or with its end or error. */
  lemma ReactKeeps<V>(t: Tee<V>, original: Stream<V>, e: Event<V>)
    requires t.original.core.kind == DefaultReader && Sound(original)
    requires t.skipped <= |ChunksServed(t.original.core.log)|
    requires !t.ended && !t.failed && t.deferred == None && t.reading
    requires InStep(t.branch1, t.cancelled1, false, false, ReadSoFar(t), [])
    requires InStep(t.branch2, t.cancelled2, false, false, ReadSoFar(t), [])
    requires original.core.kind == DefaultReader && original.core.requests == []
    requires original.core.log == t.original.core.log + [e]
    ensures TeeSound(React(t.(original := original), e))
  {
    hide Sound, ChunksServed, InStep, Close, ReadSoFar;
    var t' := React(t.(original := original), e);
    ReadSoFarGrows(t, t', e);
    if e.Served? {
      BranchAwaits(t.branch1, t.cancelled1, ReadSoFar(t), e.view);
      BranchAwaits(t.branch2, t.cancelled2, ReadSoFar(t), e.view);
    } else {
      assert ReadSoFar(t) + [] == ReadSoFar(t);
      BranchEnds(t.branch1, t.cancelled1, ReadSoFar(t));
      BranchEnds(t.branch2, t.cancelled2, ReadSoFar(t));
    }
  }

  /** A read is in flight and nothing has been handed over: the original's next move settles it. */
  lemma OriginalMovedKeeps<V>(t: Tee<V>, original: Stream<V>)
    requires Sound(t.original) && t.original.core.kind == DefaultReader && Sound(original)
    requires t.skipped <= |ChunksServed(t.original.core.log)|
    requires !t.ended && !t.failed && t.deferred == None && t.reading
    requires InStep(t.branch1, t.cancelled1, false, false, ReadSoFar(t), [])
    requires InStep(t.branch2, t.cancelled2, false, false, ReadSoFar(t), [])
    requires SettlesOne(t.original, original)
    requires |original.core.log| == |t.original.core.log| ==> |original.core.requests| == 1
    ensures TeeSound(OriginalMoved(t, original))
  {
    hide Sound, ChunksServed, InStep, React, ReadSoFar;
    if |original.core.log| > |t.original.core.log| {
      hide TeeSound;
      ReactKeeps(t, original, original.core.log[|t.original.core.log|]);
    } else {
      ReadSoFarStays(t, t.(original := original));
    }
  }

  /** A branch's pull starts a read on the original unless one is in flight. */
  lemma PullKeeps<V>(t: Tee<V>, second: bool)
    requires TeeSound(t) && !t.ended
    ensures TeeSound(Pull(t, second))
  {
    hide Sound, ChunksServed;
    if t.reading {
      assert ReadSoFar(t.(readAgain := true)) == ReadSoFar(t);
    } else {
      ReadKeeps(t.original);
      ReadSettlesOne(t.original);
      var u := t.(reading := true, asker2 := second);
      assert ReadSoFar(u) == ReadSoFar(t);
      OriginalMovedKeeps(u, Read(t.original).s);
    }
  }

  lemma OnOriginalKeeps<V>(t: Tee<V>, o: Op<V>)
    requires TeeSound(t) && OriginalOp(o) && Possible(t.original, o)
    ensures TeeSound(OriginalMoved(t, Step(t.original, o).s))
  {
    hide Sound, ChunksServed, Step;
    var original := Step(t.original, o).s;
    StepKeepsSound(t.original, o);
    OriginalStepSettlesOne(t.original, o);
    if t.original.core.requests != [] {
      OriginalMovedKeeps(t, original);
    } else {
      assert ReadSoFar(t.(original := original)) == ReadSoFar(t);
    }
  }

  // ---- Steps of the branches -----------------------------------------------------------------------

  lemma BranchStepFacts<V>(b: Stream<V>, o: Op<V>)
    requires Sound(b) && BranchOp(o) && !o.CancelStream? && Possible(b, o)
    ensures var b' := Step(b, o).s;
            && Sound(b') && b'.accepted == b.accepted && b'.core.st == b.core.st
            && (Calls(b'.pull.trace) > Calls(b.pull.trace) ==> b.core.st == Readable)
  {
    StepKeepsSound(b, o);
    if b.core.st != Readable { FinalStates(b, o); }
    hide ChunksServed, FollowsProtocol, SettlesInOrder, Evaluate, Fulfil, Calls;
  }

  lemma OnBranchKeeps<V>(t: Tee<V>, second: bool, o: Op<V>)
    requires TeeSound(t) && BranchOp(o) && !o.CancelStream?
    requires Possible(if second then t.branch2 else t.branch1, o)
    ensures TeeSound(BranchMoved(t, second, Step(if second then t.branch2 else t.branch1, o).s))
  {
    hide Sound, ChunksServed, Step, Pull;
    var b := if second then t.branch2 else t.branch1;
    var b' := Step(b, o).s;
    BranchStepFacts(b, o);
    var moved := if second then t.(branch2 := b') else t.(branch1 := b');
    assert ReadSoFar(moved) == ReadSoFar(t);
    assert TeeSound(moved);
    if Calls(b'.pull.trace) > Calls(b.pull.trace) {
      PullKeeps(moved, second);
    }
  }

  lemma CancelBranchKeeps<V>(t: Tee<V>, second: bool)
    requires TeeSound(t)
    ensures TeeSound(CancelBranch(t, second))
  {
    hide Sound, ChunksServed;
    var b := if second then t.branch2 else t.branch1;
    DefaultStream.CloseKeeps(b);
    assert ReadSoFar(CancelBranch(t, second)) == ReadSoFar(t);
  }

  // ---- The deferred chunk --------------------------------------------------------------------------

  lemma GiveChunk<V>(b: Stream<V>, chunk: V)
    requires Sound(b) && b.core.st == Readable
    ensures var b' := Enqueue(b, chunk, Some(1)).s;
            Sound(b') && b'.core.st == Readable && b'.accepted == b.accepted + [chunk]
  {
    EnqueueKeeps(b, chunk, Some(1));
    hide ChunksServed, FollowsProtocol, SettlesInOrder, Evaluate;
  }

  lemma FailBranch<V>(b: Stream<V>)
    requires Sound(b)
    ensures var b' := ErrorInternal(b, FromScript(0));
            && Sound(b') && b'.accepted == b.accepted
            && b'.core.st == (if b.core.st == Readable then Errored else b.core.st)
  {
    ErrorKeeps(b, FromScript(0));
  }

  lemma FailBothKeeps<V>(t: Tee<V>)
    requires TeeSound(t) && t.deferred.Some?
    ensures TeeSound(FailBoth(t.(readAgain := false, deferred := None)))
  {
    hide Sound, ChunksServed, ErrorInternal, ReadSoFar;
    FailBranch(t.branch1);
    FailBranch(t.branch2);
    ReadSoFarStays(t, FailBoth(t.(readAgain := false, deferred := None)));
  }

  /** A branch that has been given the deferred chunk is in step with nothing deferred. */
  lemma GivenIsInStep<V>(b: Stream<V>, cancelled: bool, read: seq<V>, chunk: V)
    requires InStep(b, cancelled, false, false, read, [chunk])
    ensures InStep(if cancelled then b else Enqueue(b, chunk, Some(1)).s, cancelled, false, false, read, [])
  {
    hide Sound, Enqueue;
    if !cancelled {
      GiveChunk(b, chunk);
      assert b.accepted + [chunk] + [] == read;
    }
  }

  lemma HandOverKeeps<V>(t: Tee<V>, chunk: V)
    requires TeeSound(t) && t.deferred == Some(chunk)
    ensures TeeSound(HandOver(t.(readAgain := false, deferred := None), chunk))
  {
    hide Sound, ChunksServed, Calls, Enqueue, InStep, ReadSoFar;
    GivenIsInStep(t.branch1, t.cancelled1, ReadSoFar(t), chunk);
    GivenIsInStep(t.branch2, t.cancelled2, ReadSoFar(t), chunk);
    var b1 := if t.cancelled1 then t.branch1 else Enqueue(t.branch1, chunk, Some(1)).s;
    var b2 := if t.cancelled2 then t.branch2 else Enqueue(t.branch2, chunk, Some(1)).s;
    var again1 := !t.cancelled1 && Calls(b1.pull.trace) > Calls(t.branch1.pull.trace);
    var again2 := !t.cancelled2 && Calls(b2.pull.trace) > Calls(t.branch2.pull.trace);
    var u := t.(readAgain := again1 || again2, deferred := None, branch1 := b1, branch2 := b2, reading := false);
    ReadSoFarStays(t, u);
    assert TeeSound(u);
    hide TeeSound, Read, OriginalMoved;
    assert HandOver(t.(readAgain := false, deferred := None), chunk) == if u.readAgain then Pull(u, u.asker2) else u;
    if u.readAgain { PullKeeps(u, u.asker2); }
  }

  lemma ChunkStepKeeps<V>(t: Tee<V>, cloneFails: bool)
    requires TeeSound(t) && t.deferred.Some?
    ensures TeeSound(ChunkStep(t, cloneFails))
  {
    hide TeeSound, FailBoth, HandOver;
    if !t.cancelled2 && t.cloneBranch2 && cloneFails {
      FailBothKeeps(t);
    } else {
      HandOverKeeps(t, t.deferred.value);
    }
  }

  // ---- Runs ----------------------------------------------------------------------------------------

  lemma TeeStepKeeps<V>(t: Tee<V>, op: TeeOp<V>)
    requires TeeSound(t) && TeePossible(t, op)
    ensures TeeSound(TeeStep(t, op))
  {
    hide TeeSound, OriginalMoved, BranchMoved, ChunkStep, CancelBranch, Step;
    match op
    case OnOriginal(o) => OnOriginalKeeps(t, o);
    case OnBranch(second, o) =>
      if o.CancelStream? {
        CancelBranchKeeps(t, second);
      } else {
        OnBranchKeeps(t, second, o);
      }
    case DeliverChunk(cloneFails) => ChunkStepKeeps(t, cloneFails);
  }

  lemma {:induction false} TeeRunKeeps<V>(t: Tee<V>, ops: seq<TeeOp<V>>)
    requires TeeSound(t)
    ensures TeeSound(TeeRun(t, ops))
    decreases |ops|
  {
    hide TeeSound, TeeStep, TeePossible;
    if ops != [] {
      if !TeePossible(t, ops[0]) {
        TeeRunKeeps(t, ops[1..]);
      } else {
        TeeStepKeeps(t, ops[0]);
        TeeRunKeeps(TeeStep(t, ops[0]), ops[1..]);
      }
    }
  }

  lemma NewBranchInStep<V>()
    ensures InStep(NewStream<V>(Finite(1.0)), false, false, false, [], [])
  {
    NewIsSound<V>(Finite(1.0));
    hide Sound;
    var none: seq<V> := [];
    assert none + none == none;
  }

  lemma NewTeeIsSound<V>(original: Stream<V>, cloneBranch2: bool)
    requires Sound(original) && original.core.kind == DefaultReader && original.core.requests == []
    ensures TeeSound(NewTee(original, cloneBranch2))
  {
    hide Sound, InStep, ChunksServed, NewStream;
    NewBranchInStep<V>();
    var served := ChunksServed(original.core.log);
    assert served[|served|..] == [];
  }

  /**
   Both branches are given the chunks read from the original, in order: an uncancelled one all of
   them up to the one still deferred, a cancelled one a prefix. What their readers receive is a
   prefix of what the source enqueued. One read is in flight at most; no branch ends early.
   An error of the original does not reach the branches, where the Streams Standard forwards it.
   */
  lemma TeeDeliversTheSameChunks<V>(original: Stream<V>, cloneBranch2: bool, ops: seq<TeeOp<V>>)
    requires Sound(original) && original.core.kind == DefaultReader && original.core.requests == []
    ensures var t := TeeRun(NewTee(original, cloneBranch2), ops);
            var read := ReadSoFar(t);
            && (!t.cancelled1 && !t.cancelled2 && !t.failed ==> t.branch1.accepted == t.branch2.accepted)
            && (!t.cancelled1 && !t.failed ==> t.branch1.accepted + Pending(t) == read)
            && (!t.cancelled2 && !t.failed ==> t.branch2.accepted + Pending(t) == read)
            && t.branch1.accepted <= read && t.branch2.accepted <= read
            && ChunksServed(t.branch1.core.log) <= read && ChunksServed(t.branch2.core.log) <= read
            && ChunksServed(t.original.core.log) <= t.original.accepted
            && |t.original.core.requests| <= 1
            && (t.original.core.requests != [] ==> t.reading && t.deferred == None)
            && (!t.failed ==> t.branch1.core.st != Errored && t.branch2.core.st != Errored)
            && (t.deferred.Some? ==>
                  && t.reading
                  && (!t.cancelled1 ==> t.branch1.core.st == Readable)
                  && (!t.cancelled2 ==> t.branch2.core.st == Readable))
  {
    NewTeeIsSound(original, cloneBranch2);
    TeeRunKeeps(NewTee(original, cloneBranch2), ops);
    var t := TeeRun(NewTee(original, cloneBranch2), ops);
    TeeSoundMeans(t);
  }

  lemma TeeSoundMeans<V>(t: Tee<V>)
    requires TeeSound(t)
    ensures var read := ReadSoFar(t);
            && (!t.cancelled1 && !t.failed ==> t.branch1.accepted + Pending(t) == read)
            && (!t.cancelled2 && !t.failed ==> t.branch2.accepted + Pending(t) == read)
            && t.branch1.accepted <= read && t.branch2.accepted <= read
            && ChunksServed(t.branch1.core.log) <= read && ChunksServed(t.branch2.core.log) <= read
            && ChunksServed(t.original.core.log) <= t.original.accepted
            && (t.deferred.Some? ==> !t.ended && !t.failed && t.reading)
            && (!t.cancelled1 && !t.cancelled2 && !t.failed ==> t.branch1.accepted == t.branch2.accepted)
  {
    hide ChunksServed, FollowsProtocol, SettlesInOrder, ReadSoFar;
    var read := ReadSoFar(t);
    if !t.cancelled1 && !t.cancelled2 && !t.failed {
      var n := |read| - |Pending(t)|;
      assert t.branch1.accepted == (t.branch1.accepted + Pending(t))[..n] == read[..n];
      assert t.branch2.accepted == (t.branch2.accepted + Pending(t))[..n] == read[..n];
    }
  }

  // ---- A chunk that cannot be cloned ----------------------------------------------------------------

  /** Both branches end in the clone's error, with what they had been given; `reading` stays set. */
  lemma FailedCloneErrorsBoth<V>(t: Tee<V>)
    requires TeeSound(t) && t.deferred.Some? && t.cloneBranch2 && !t.cancelled2
    ensures var u := ChunkStep(t, true);
            && u.failed && u.reading && u.original == t.original
            && u.branch2.core.st == Errored && (!t.cancelled1 ==> u.branch1.core.st == Errored)
            && u.branch1.accepted == t.branch1.accepted && u.branch2.accepted == t.branch2.accepted
  {
    hide Sound, ChunksServed, ErrorInternal, ReadSoFar;
    FailBranch(t.branch1);
    FailBranch(t.branch2);
  }

  lemma UnsettledMove<V>(t: Tee<V>, original: Stream<V>)
    requires original.core.log == t.original.core.log
    ensures OriginalMoved(t, original) == t.(original := original)
  {
  }

  lemma CancelLeavesOriginal<V>(t: Tee<V>, second: bool)
    ensures CancelBranch(t, second).original == t.original && CancelBranch(t, second).failed == t.failed
  {
    hide Cancel;
  }

  lemma BusyPull<V>(t: Tee<V>, second: bool)
    requires t.reading
    ensures Pull(t, second) == t.(readAgain := true)
  {
  }

  lemma BusyBranch<V>(t: Tee<V>, second: bool, branch: Stream<V>)
    requires t.reading
    ensures BranchMoved(t, second, branch).original == t.original && BranchMoved(t, second, branch).failed == t.failed
  {
    hide Calls, Pull;
    BusyPull(if second then t.(branch2 := branch) else t.(branch1 := branch), second);
  }

  lemma FailedTeeIsIdle<V>(t: Tee<V>)
    requires TeeSound(t) && t.failed
    ensures Sound(t.original) && t.original.core.requests == [] && t.reading && t.deferred == None
  {
    hide Sound, ChunksServed, InStep, ReadSoFar;
  }

  /** After that nothing more is read from the original, whatever its source and the branches do. */
  lemma FailedTeeReadsNoMore<V>(t: Tee<V>, op: TeeOp<V>)
    requires TeeSound(t) && t.failed && TeePossible(t, op)
    ensures var u := TeeStep(t, op);
            u.failed && u.original.core.issued == t.original.core.issued && u.original.core.log == t.original.core.log
  {
    FailedTeeIsIdle(t);
    hide TeeSound, Sound, Step, Possible, OriginalMoved, BranchMoved, CancelBranch, OriginalOp, BranchOp;
    match op
    case OnOriginal(o) =>
      OriginalIsLeftAlone(t.original, o);
      UnsettledMove(t, Step(t.original, o).s);
    case OnBranch(second, o) =>
      CancelLeavesOriginal(t, second);
      BusyBranch(t, second, Step(if second then t.branch2 else t.branch1, o).s);
    case DeliverChunk(_) => assert false;
  }

  lemma OriginalIsLeftAlone<V>(s: Stream<V>, o: Op<V>)
    requires Sound(s) && s.core.requests == [] && OriginalOp(o) && Possible(s, o)
    ensures Step(s, o).s.core.issued == s.core.issued && Step(s, o).s.core.log == s.core.log
    ensures s.core.st == Errored ==> Step(s, o).s.core.st == Errored
  {
    OriginalStepSettlesOne(s, o);
    if s.core.st != Readable { FinalStates(s, o); }
    hide ChunksServed, FollowsProtocol, SettlesInOrder, Evaluate, Fulfil, SettlesOne;
  }

  lemma {:induction false} FailedTeeIsFinal<V>(t: Tee<V>, ops: seq<TeeOp<V>>)
    requires TeeSound(t) && t.failed
    ensures var u := TeeRun(t, ops);
            && TeeSound(u) && u.failed
            && u.original.core.issued == t.original.core.issued && u.original.core.log == t.original.core.log
    decreases |ops|
  {
    hide TeeSound, TeeStep, TeePossible;
    if ops != [] {
      if !TeePossible(t, ops[0]) {
        FailedTeeIsFinal(t, ops[1..]);
      } else {
        TeeStepKeeps(t, ops[0]);
        FailedTeeReadsNoMore(t, ops[0]);
        FailedTeeIsFinal(TeeStep(t, ops[0]), ops[1..]);
      }
    }
  }

  // ---- An original that errors ----------------------------------------------------------------------

  /** The original has errored, and every chunk read from it has been handed over. */
  predicate Orphaned<V>(t: Tee<V>) {
    t.original.core.st == Errored && t.deferred == None && !t.failed && !t.ended
  }

  lemma OriginalErrors<V>(s: Stream<V>, reason: Reason)
    requires s.core.st == Readable
    ensures var s' := Step(s, ErrorStream(reason)).s;
            s'.core.st == Errored && s'.core.log == s.core.log + FailAll<V>(s.core.requests, reason)
  {
  }

  lemma AtMostOneFails<V>(log: seq<Event<V>>, requests: seq<nat>, reason: Reason)
    requires |requests| <= 1
    ensures requests == [] ==> log + FailAll<V>(requests, reason) == log
    ensures requests != [] ==> FailAll<V>(requests, reason) == [Failed(requests[0], reason)]
  {
  }

  lemma FailedMove<V>(t: Tee<V>, original: Stream<V>, e: Event<V>)
    requires original.core.log == t.original.core.log + [e] && e.Failed?
    ensures OriginalMoved(t, original) == t.(original := original, reading := false)
  {
    assert original.core.log[|t.original.core.log|] == e;
  }

  lemma ErrorMoves<V>(t: Tee<V>, original: Stream<V>, reason: Reason)
    requires (t.reading <==> t.original.core.requests != []) && |t.original.core.requests| <= 1
    requires original.core.log == t.original.core.log + FailAll<V>(t.original.core.requests, reason)
    ensures OriginalMoved(t, original) == t.(original := original, reading := false)
  {
    hide OriginalMoved, FailAll;
    var requests := t.original.core.requests;
    AtMostOneFails<V>(t.original.core.log, requests, reason);
    if requests != [] {
      FailedMove(t, original, Failed(requests[0], reason));
    } else {
      UnsettledMove(t, original);
    }
  }

  /** The error itself moves neither branch. */
  lemma ErrorOrphans<V>(t: Tee<V>, reason: Reason)
    requires TeeSound(t) && t.original.core.st == Readable && t.deferred == None && !t.failed
    ensures var u := TeeStep(t, OnOriginal(ErrorStream(reason)));
            u.branch1 == t.branch1 && u.branch2 == t.branch2 && !u.reading && (!t.ended ==> Orphaned(u))
  {
    IdleOrReading(t);
    hide TeeSound, Step, OriginalMoved, FailAll;
    var original := Step(t.original, ErrorStream(reason)).s;
    OriginalErrors(t.original, reason);
    ErrorMoves(t, original, reason);
  }

  lemma IdleOrReading<V>(t: Tee<V>)
    requires TeeSound(t) && t.deferred == None && !t.failed
    ensures (t.reading <==> t.original.core.requests != []) && |t.original.core.requests| <= 1
  {
    hide Sound, InStep, ChunksServed, ReadSoFar;
  }

  /** A read of an errored original fails at once, which only clears `reading`. */
  lemma OrphanPull<V>(t: Tee<V>, second: bool)
    requires Orphaned(t) && t.original.core.kind == DefaultReader
    ensures Orphaned(Pull(t, second))
  {
    hide StoredError;
    if !t.reading {
      var original := Read(t.original).s;
      assert original.core.log[|t.original.core.log|].Failed?;
    }
  }

  lemma OrphanIsIdle<V>(t: Tee<V>)
    requires TeeSound(t) && Orphaned(t)
    ensures Sound(t.original) && t.original.core.requests == [] && t.original.core.kind == DefaultReader
  {
    hide ChunksServed, InStep, ReadSoFar, SettlesInOrder, FollowsProtocol;
  }

  lemma OrphanStays<V>(t: Tee<V>, op: TeeOp<V>)
    requires TeeSound(t) && Orphaned(t) && TeePossible(t, op)
    ensures Orphaned(TeeStep(t, op))
  {
    OrphanIsIdle(t);
    hide Sound, TeeSound, Step, OriginalMoved, BranchMoved, CancelBranch, Possible, OriginalOp, BranchOp;
    match op
    case OnOriginal(o) =>
      OriginalIsLeftAlone(t.original, o);
      UnsettledMove(t, Step(t.original, o).s);
    case OnBranch(second, o) =>
      OrphanCancel(t, second);
      OrphanBranch(t, second, Step(if second then t.branch2 else t.branch1, o).s);
    case DeliverChunk(_) => assert false;
  }

  lemma OrphanCancel<V>(t: Tee<V>, second: bool)
    requires Orphaned(t)
    ensures Orphaned(CancelBranch(t, second))
  {
    hide Cancel;
  }

  lemma OrphanBranch<V>(t: Tee<V>, second: bool, branch: Stream<V>)
    requires Orphaned(t) && t.original.core.kind == DefaultReader
    ensures Orphaned(BranchMoved(t, second, branch))
  {
    hide Calls, Pull;
    OrphanPull(if second then t.(branch2 := branch) else t.(branch1 := branch), second);
  }

  /**
   A tee does not forward the error of its original, where the Streams Standard does: a branch that
   is not cancelled stays readable for ever after, so that a read waiting on it never settles.
   */
  lemma {:induction false} OrphansWaitForever<V>(t: Tee<V>, ops: seq<TeeOp<V>>)
    requires TeeSound(t) && Orphaned(t)
    ensures var u := TeeRun(t, ops);
            && Orphaned(u)
            && (!u.cancelled1 ==> u.branch1.core.st == Readable)
            && (!u.cancelled2 ==> u.branch2.core.st == Readable)
    decreases |ops|
  {
    hide TeeStep, TeePossible, Sound, ReadSoFar, ChunksServed, Orphaned;
    if ops == [] {
      OrphansAreReadable(t);
    } else {
      hide TeeSound;
      if !TeePossible(t, ops[0]) {
        OrphansWaitForever(t, ops[1..]);
      } else {
        TeeStepKeeps(t, ops[0]);
        OrphanStays(t, ops[0]);
        OrphansWaitForever(TeeStep(t, ops[0]), ops[1..]);
      }
    }
  }

  lemma OrphansAreReadable<V>(t: Tee<V>)
    requires TeeSound(t) && Orphaned(t)
    ensures !t.cancelled1 ==> t.branch1.core.st == Readable
    ensures !t.cancelled2 ==> t.branch2.core.st == Readable
  {
    hide Sound, ReadSoFar, ChunksServed;
  }
}
