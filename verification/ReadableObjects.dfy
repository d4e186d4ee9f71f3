/** The mutable objects both kinds of controller work on: the stream, its reader, the common controller. */
module ReadableObjects {
  import opened StreamCore
  import opened Wrappers
  import opened PullProtocol

  /** The requests of a reader, oldest first; a request is known by the number of its read. */
  class CommonReader {
    var requests: seq<nat>

    constructor ()
      ensures requests == []
    {
      requests := [];
    }
  }

  class ReadableStream<V> {
    var state: State
    var error: Option<Reason>
    var readerKind: ReaderKind
    var reader: CommonReader?
    var issued: nat
    ghost var log: seq<Event<V>>

    constructor ()
      ensures Valid() && Core() == NewCore()
    {
      state, error, readerKind, reader, issued, log := Readable, None, NoReader, null, 0, [];
    }

    ghost predicate Valid()
      reads this
    {
      readerKind == NoReader <==> reader == null
    }

    ghost function Core(): Core<V>
      reads this, reader
    {
      StreamCore.Core(state, error, readerKind, if reader == null then [] else reader.requests, issued, log)
    }

    /** native_reader tells whether a reader locks the stream and has requests waiting. */
    predicate HasRequests()
      reads this, reader
    {
      reader != null && reader.requests != []
    }

    /** The outcome of one request, as its closure reports it to the read's promise. */
    ghost method Report(e: Event<V>)
      modifies this`log
      ensures log == old(log) + [e]
    {
      log := log + [e];
    }

    method Close() returns (ok: bool)
      requires Valid()
      modifies this, reader
      ensures Valid() && reader == old(reader)
      ensures ok == (old(state) == Readable)
      ensures Core() == if ok then CloseCore(old(Core())) else old(Core())
    {
      if state != Readable {
        return false;
      }
      ok := true;
      state := Closed;
      if reader != null && readerKind == DefaultReader {
        ghost var before := log;
        var i := 0;
        while i < |reader.requests|
          invariant 0 <= i <= |reader.requests|
          invariant reader.requests == old(reader.requests)
          invariant log == before + EndAll<V>(reader.requests)[..i]
          modifies this`log
        {
          Report(Ended(reader.requests[i], None));
          i := i + 1;
        }
        assert EndAll<V>(reader.requests)[..i] == EndAll<V>(reader.requests);
        reader.requests := [];
      }
    }

    method Fail(reason: Reason) returns (ok: bool)
      requires Valid()
      modifies this, reader
      ensures Valid() && reader == old(reader)
      ensures ok == (old(state) == Readable)
      ensures Core() == if ok then ErrorCore(old(Core()), reason) else old(Core())
    {
      if state != Readable {
        return false;
      }
      ok := true;
      state := Errored;
      error := Some(reason);
      if reader != null {
        FailRequests(reason);
      } else {
        assert log + FailAll<V>([], reason) == log;
      }
    }

    /** Fails every waiting request, oldest first. */
    method FailRequests(reason: Reason)
      requires reader != null
      modifies this`log, reader
      ensures reader.requests == [] && log == old(log) + FailAll<V>(old(reader.requests), reason)
    {
      ghost var all := FailAll<V>(reader.requests, reason);
      ghost var done := 0;
      while reader.requests != []
        invariant 0 <= done <= |all| == |old(reader.requests)|
        invariant reader.requests == old(reader.requests)[done..]
        invariant log == old(log) + all[..done]
        modifies this`log, reader
        decreases |reader.requests|
      {
        var request := reader.requests[0];
        reader.requests := reader.requests[1..];
        Report(Failed(request, reason));
        done := done + 1;
      }
      assert all[..done] == all;
    }

    method GetReader(kind: ReaderKind) returns (ok: bool)
      requires Valid() && kind != NoReader
      modifies this
      ensures Valid()
      ensures ok == (old(readerKind) == NoReader)
      ensures ok ==> fresh(reader)
      ensures !ok ==> reader == old(reader)
      ensures Core() == if ok then old(Core()).(kind := kind, requests := []) else old(Core())
    {
      if readerKind != NoReader {
        return false;
      }
      ok := true;
      reader := new CommonReader();
      readerKind := kind;
    }
  }

  class CommonController<V> {
    const stream: ReadableStream<V>
    var started: bool
    var pulling: bool
    var pullAgain: bool
    var closeRequested: bool
    const highWaterMark: HighWaterMark
    var queueSize: nat
    var startSettled: bool
    var outstanding: bool
    ghost var trace: seq<Note>

    constructor (stream: ReadableStream<V>, highWaterMark: HighWaterMark)
      ensures this.stream == stream && this.highWaterMark == highWaterMark
      ensures Pull() == Idle && !closeRequested && queueSize == 0
    {
      this.stream, this.highWaterMark := stream, highWaterMark;
      started, pulling, pullAgain, closeRequested := false, false, false, false;
      queueSize, startSettled, outstanding, trace := 0, false, false, [];
    }

    ghost function Pull(): Pull
      reads this
    {
      PullProtocol.Pull(started, startSettled, pulling, pullAgain, outstanding, trace)
    }

    predicate CanCloseOrEnqueue()
      reads this, stream
    {
      stream.state == Readable && !closeRequested
    }

    predicate ShouldCallPull()
      reads this, stream, stream.reader
    {
      CanCloseOrEnqueue() && started && (stream.HasRequests() || Exceeds(highWaterMark, queueSize))
    }

    /** Called once if the stream is open and started, none was under way, and reads wait or the mark is not reached. */
    ghost predicate CalledIfDue(before: seq<Note>, busy: bool)
      reads this, stream, stream.reader
    {
      var due := stream.state == Readable && !closeRequested && started
                 && (stream.HasRequests() || highWaterMark == Infinite || queueSize as real < highWaterMark.level);
      Calls(trace) == Calls(before) + (if due && !busy then 1 else 0)
    }

    method PullIfNeeded()
      modifies this`pulling, this`pullAgain, this`outstanding, this`trace
      ensures Pull() == Evaluate(old(Pull()), stream.state, ShouldCallPull())
      ensures CalledIfDue(old(trace), old(pulling))
    {
      EvaluateCalls(Pull(), stream.state, ShouldCallPull());
      hide Calls;
      if !ShouldCallPull() {
        return;
      }
      if pulling {
        pullAgain := true;
        trace := trace + [Wanted];
        return;
      }
      pulling := true;
      outstanding := true;
      trace := trace + [Called(stream.state, started)];
    }

    /** The reaction to the promise of the source's `start`. */
    method StartFulfilled()
      requires !startSettled
      modifies this
      ensures closeRequested == old(closeRequested) && queueSize == old(queueSize)
      ensures Pull() == Evaluate(old(Pull()).(started := true, settled := true), stream.state, ShouldCallPull())
    {
      startSettled := true;
      started := true;
      PullIfNeeded();
    }

    /** The reaction to a fulfilled pull promise. */
    method PullFulfilled()
      requires outstanding
      modifies this
      ensures closeRequested == old(closeRequested) && queueSize == old(queueSize)
      ensures Pull() == Fulfil(old(Pull()), stream.state, ShouldCallPull())
    {
      outstanding := false;
      trace := trace + [Fulfilled];
      pulling := false;
      if pullAgain {
        pullAgain := false;
        PullIfNeeded();
      }
    }
  }
}
