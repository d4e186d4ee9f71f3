/** TeeDefaultState as the object its closures share, proved against the tee machine. */
module TeeState {
  import opened StreamCore
  import opened Wrappers
  import opened PullProtocol
  import opened DefaultStream
  import opened TeeStream

  /**
   The streams are kept as values; the flags are the cells that the tee's closures set in turn. Each
   method does to `View` what the machine does, so `TeeSound` is kept from call to call.
   */
  /** An open branch has been closed, and its waiting reads have ended; any other is as it was. */
  ghost predicate CloseReached<V>(before: Stream<V>, after: Stream<V>) {
    if before.core.st == Readable && !before.closeRequested && before.core.kind == DefaultReader then
      after.core.st == Closed && AllSettled(before.core, after.core, id => Ended(id, None))
    else if before.core.st == Readable && !before.closeRequested then after.core.st == Closed
    else after == before
  }

  lemma CloseReaches<V>(b: Stream<V>)
    ensures CloseReached(b, Close(b).s)
  {
    BulkSettlingIs(b.core, ReaderReleased);
  }

  class TeeDefaultState<V> {
    var original: Stream<V>
    var branch1: Stream<V>
    var branch2: Stream<V>
    var reading: bool
    var readAgain: bool
    var cancelled1: bool
    var cancelled2: bool
    const cloneBranch2: bool
    var second: bool
    var deferred: Option<V>
    ghost var ended: bool
    ghost var failed: bool
    ghost const skipped: nat

    constructor (original: Stream<V>, cloneBranch2: bool)
      ensures View() == NewTee(original, cloneBranch2)
    {
      this.original, this.cloneBranch2 := original, cloneBranch2;
      branch1, branch2 := NewStream(Finite(1.0)), NewStream(Finite(1.0));
      reading, readAgain, cancelled1, cancelled2, second := false, false, false, false, false;
      deferred, ended, failed, skipped := None, false, false, |ChunksServed(original.core.log)|;
    }

    ghost function View(): Tee<V>
      reads this
    {
      Tee(original, branch1, branch2, reading, readAgain, cancelled1, cancelled2, cloneBranch2, second,
          deferred, ended, failed, skipped)
    }

    /** The closures of the tee's request: `chunk` only defers, `close` ends both branches. */
    method OnSettled(e: Event<V>)
      modifies this
      ensures View() == React(old(View()), e)
      ensures e.Ended? ==> !reading && (!cancelled1 ==> CloseReached(old(branch1), branch1))
                           && (!cancelled2 ==> CloseReached(old(branch2), branch2))
    {
      hide Close;
      CloseReaches(branch1);
      CloseReaches(branch2);
      match e {
        case Served(_, chunk) => deferred := Some(chunk);
        case Ended(_, _) =>
          reading := false;
          ended := true;
          if !cancelled1 {
            branch1 := Close(branch1).s;
          }
          if !cancelled2 {
            branch2 := Close(branch2).s;
          }
        case Failed(_, _) => reading := false;
      }
    }

    /** StreamSource::pull for a branch. */
    method Pull(forSecond: bool)
      modifies this
      ensures View() == TeeStream.Pull(old(View()), forSecond)
    {
      if reading {
        readAgain := true;
        return;
      }
      reading := true;
      second := forSecond;
      var before := |original.core.log|;
      original := Read(original).s;
      if |original.core.log| > before {
        OnSettled(original.core.log[before]);
      }
    }

    /** Gives a chunk to a branch, whose controller may pull at once. */
    method GiveTo(forSecond: bool, chunk: V)
      modifies this
      ensures View() == BranchMoved(old(View()), forSecond,
                          Enqueue(if forSecond then old(branch2) else old(branch1), chunk, Some(1)).s)
    {
      var before := Calls(if forSecond then branch2.pull.trace else branch1.pull.trace);
      var after;
      if forSecond {
        branch2 := Enqueue(branch2, chunk, Some(1)).s;
        after := Calls(branch2.pull.trace);
      } else {
        branch1 := Enqueue(branch1, chunk, Some(1)).s;
        after := Calls(branch1.pull.trace);
      }
      if after > before {
        Pull(forSecond);
      }
    }

    /** The microtask that hands the chunk to the branches and reads again if one asked to. */
    method DeliverChunk(cloneFails: bool)
      requires deferred.Some?
      modifies this
      ensures View() == ChunkStep(old(View()), cloneFails)
    {
      hide TeeStream.FailBoth, TeeStream.HandOver;
      readAgain := false;
      var chunk := deferred.value;
      deferred := None;
      if !cancelled2 && cloneBranch2 && cloneFails {
        FailBoth();
      } else {
        HandOver(chunk);
      }
    }

    method FailBoth()
      modifies this
      ensures View() == TeeStream.FailBoth(old(View()))
    {
      branch1 := ErrorInternal(branch1, FromScript(0));
      branch2 := ErrorInternal(branch2, FromScript(0));
      failed := true;
    }

    method HandOver(chunk: V)
      modifies this
      ensures View() == TeeStream.HandOver(old(View()), chunk)
    {
      hide TeeStream.GiveToBoth, TeeStream.Pull;
      GiveToBoth(chunk);
      reading := false;
      if readAgain {
        Pull(second);
      }
    }

    method GiveToBoth(chunk: V)
      modifies this
      ensures View() == TeeStream.GiveToBoth(old(View()), chunk)
    {
      hide BranchMoved, Enqueue;
      if !cancelled1 {
        GiveTo(false, chunk);
      }
      if !cancelled2 {
        GiveTo(true, chunk);
      }
    }

    /** StreamSource::cancel for a branch whose stream has been cancelled. */
    method CancelBranch(forSecond: bool)
      modifies this
      ensures View() == TeeStream.CancelBranch(old(View()), forSecond)
    {
      var branch := if forSecond then branch2 else branch1;
      var r := Cancel(branch);
      var wasReadable := r.ok && branch.core.st == Readable;
      if forSecond {
        branch2 := r.s;
        cancelled2 := cancelled2 || wasReadable;
      } else {
        branch1 := r.s;
        cancelled1 := cancelled1 || wasReadable;
      }
    }
  }
}
