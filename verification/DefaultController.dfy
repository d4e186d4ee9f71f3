/** ReadableStreamDefaultController as an object, each method proved against the default-stream machine. */
module DefaultControllers {
  import opened StreamCore
  import opened Wrappers
  import opened PullProtocol
  import opened ReadableObjects
  import Spec = DefaultStream

  class DefaultController<V> {
    const common: CommonController<V>
    var queue: seq<(V, nat)>
    ghost var accepted: seq<V>
    ghost var entered: seq<(V, nat)>

    constructor (stream: ReadableStream<V>, highWaterMark: HighWaterMark)
      requires stream.Valid() && stream.Core() == NewCore()
      ensures Valid() && View() == Spec.NewStream(highWaterMark)
      ensures common.stream == stream && fresh(common)
    {
      common := new CommonController(stream, highWaterMark);
      queue, accepted, entered := [], [], [];
      new;
      assert Trail(View().core) == [];
    }

    ghost predicate Valid()
      reads this, common, common.stream, common.stream.reader
    {
      common.stream.Valid() && Spec.Sound(View())
    }

    ghost function View(): Spec.Stream<V>
      reads this, common, common.stream, common.stream.reader
    {
      Spec.Stream(common.stream.Core(), common.Pull(), common.closeRequested, common.queueSize,
                  common.highWaterMark, queue, accepted, entered)
    }

    method ResetQueue()
      modifies this`queue, this`entered, common`queueSize
      ensures View() == Spec.ResetQueue(old(View()))
    {
      queue, entered := [], [];
      common.queueSize := 0;
    }

    method ErrorInternal(reason: Reason)
      requires Valid()
      modifies this`queue, this`entered, common`queueSize, common.stream, common.stream.reader
      ensures Valid() && View() == Spec.ErrorInternal(old(View()), reason)
    {
      Spec.ErrorKeeps(View(), reason);
      if common.stream.state == Readable {
        ResetQueue();
        var _ := common.stream.Fail(reason);
      }
    }

    method Close() returns (ok: bool)
      requires Valid()
      modifies common`closeRequested, common.stream, common.stream.reader
      ensures Valid() && View() == Spec.Close(old(View())).s && ok == Spec.Close(old(View())).ok
    {
      Spec.CloseKeeps(View());
      hide Spec.Sound, CloseCore;
      if common.CanCloseOrEnqueue() {
        if queue == [] {
          common.closeRequested := true;
        }
        ok := common.stream.Close();
      } else {
        ok := false;
      }
    }

    /** `measured` is the answer of the strategy's `size`, which is called only if no read waits. */
    method Enqueue(chunk: V, measured: Option<nat>) returns (ok: bool)
      requires Valid()
      modifies this, common, common.stream, common.stream.reader
      ensures Valid() && View() == Spec.Enqueue(old(View()), chunk, measured).s
      ensures ok == Spec.Enqueue(old(View()), chunk, measured).ok
    {
      Spec.EnqueueKeeps(View(), chunk, measured);
      OnlyDefaultReaders();
      hide Spec.Sound, Spec.ErrorInternal, Spec.PullIfNeeded, Settle;
      if !common.CanCloseOrEnqueue() {
        return false;
      }
      ok := true;
      if common.stream.reader != null && common.stream.reader.requests != [] {
        AnswerRead(chunk);
        return;
      }
      match measured {
        case Some(size) => QueueChunk(chunk, size);
        case None => ErrorInternal(FromScript(0));
      }
    }

    lemma OnlyDefaultReaders()
      requires Valid()
      ensures common.stream.reader != null ==> common.stream.readerKind == DefaultReader
    {
    }

    /** enqueue while a read waits: the chunk answers the oldest read. */
    method AnswerRead(chunk: V)
      requires common.stream.reader != null && common.stream.reader.requests != []
      modifies `accepted, common.stream`log, common.stream.reader
      ensures var s := old(View());
              View() == s.(core := Settle(s.core, Served(s.core.requests[0], chunk)).(requests := s.core.requests[1..]),
                           accepted := s.accepted + [chunk])
    {
      hide Evaluate;
      var reader := common.stream.reader;
      var request := reader.requests[0];
      reader.requests := reader.requests[1..];
      accepted := accepted + [chunk];
      common.stream.Report(Served(request, chunk));
    }

    /** enqueue while no read waits. */
    method QueueChunk(chunk: V, size: nat)
      requires common.stream.Valid()
      modifies `queue, `accepted, `entered, common
      ensures var s := old(View());
              View() == Spec.PullIfNeeded(s.(queue := s.queue + [(chunk, size)], size := s.size + size,
                                             accepted := s.accepted + [chunk],
                                             entered := s.entered + [(chunk, size)]))
    {
      hide Evaluate;
      queue := queue + [(chunk, size)];
      entered := entered + [(chunk, size)];
      common.queueSize := common.queueSize + size;
      accepted := accepted + [chunk];
      common.PullIfNeeded();
    }

    /** DefaultReader::read on a stream with this controller. */
    method Read() returns (ok: bool)
      requires Valid()
      modifies this`queue, common, common.stream, common.stream.reader
      ensures Valid() && View() == Spec.Read(old(View())).s && ok == Spec.Read(old(View())).ok
    {
      Spec.ReadKeeps(View());
      OnlyDefaultReaders();
      assert common.closeRequested ==> common.stream.state != Readable;
      hide Spec.Sound, Spec.PullIfNeeded, Settle;
      if common.stream.readerKind != DefaultReader {
        return false;
      }
      ok := true;
      var id := common.stream.issued;
      common.stream.issued := id + 1;
      assert View() == old(View()).(core := Issue(old(View().core)));
      match common.stream.state {
        case Closed => Report(Ended(id, None));
        case Errored => Report(Failed(id, StoredError(common.stream.Core())));
        case Readable => Pull(id);
      }
    }

    ghost method Report(e: Event<V>)
      modifies common.stream`log
      ensures View() == old(View()).(core := Settle(old(View().core), e))
    {
      common.stream.Report(e);
    }

    /** Controller::pull for the read `id`: popping a chunk leaves the queue size as it is. */
    method Pull(id: nat)
      requires common.stream.Valid() && common.stream.reader != null && !common.closeRequested
      modifies this`queue, common, common.stream`log, common.stream.reader
      ensures var s := old(View());
              View() == if s.queue != [] then
                          var t := Spec.PullIfNeeded(s.(queue := s.queue[1..]));
                          t.(core := Settle(t.core, Served(id, s.queue[0].0)))
                        else
                          Spec.PullIfNeeded(s.(core := s.core.(requests := s.core.requests + [id])))
    {
      hide Evaluate;
      if queue != [] {
        var chunk := queue[0].0;
        queue := queue[1..];
        if common.closeRequested && queue == [] {
          assert false;
        } else {
          common.PullIfNeeded();
        }
        common.stream.Report(Served(id, chunk));
      } else {
        common.stream.reader.requests := common.stream.reader.requests + [id];
        common.PullIfNeeded();
      }
    }

    /** CommonReader::release_lock; a default controller has nothing to release. */
    method ReleaseLock() returns (ok: bool)
      requires Valid()
      modifies common.stream, common.stream.reader
      ensures Valid() && View() == Spec.ReleaseLock(old(View())).s && ok == Spec.ReleaseLock(old(View())).ok
    {
      Spec.CloseKeeps(View());
      if common.stream.reader == null {
        return false;
      }
      ok := true;
      common.stream.FailRequests(ReaderReleased);
      common.stream.readerKind := NoReader;
      common.stream.reader := null;
    }

    /** ReadableStream::cancel, with Controller::cancel. */
    method Cancel() returns (ok: bool)
      requires Valid()
      modifies this`queue, this`entered, common`queueSize, common.stream, common.stream.reader
      ensures Valid() && View() == Spec.Cancel(old(View())).s && ok == Spec.Cancel(old(View())).ok
    {
      Spec.CloseKeeps(View());
      if common.stream.readerKind != NoReader {
        return false;
      }
      ok := true;
      if common.stream.state == Readable {
        var _ := common.stream.Close();
        ResetQueue();
      }
    }

    /** The reaction to a fulfilled pull promise. */
    method PullFulfilled()
      requires Valid() && common.outstanding
      modifies common
      ensures Valid() && View() == Spec.Step(old(View()), Spec.PullFulfilled).s
    {
      Spec.StepKeepsSound(View(), Spec.PullFulfilled);
      common.PullFulfilled();
    }
  }
}
