/** Whole runs of a byte stream: what holds in every reachable state. */
module ByteRuns {
  import opened Chunks
  import opened StreamCore
  import opened PullProtocol
  import opened ByteStream
  import opened ByteLifecycle
  import opened ByteDelivery
  import opened ByteSteps
  import opened ByteAnswers
  import opened ByteRanks
  import opened ByteOutcomes
  import opened ByteOrder
  import opened ByteFits
  import opened ByteEffects

  /** A regular step never fails an `unwrap`; unless its loop hangs it ends in a sound state. */
  lemma StepKeepsSound(s: Stream, op: Op)
    requires Sound(s) && Possible(s, op) && Regular(s, op)
    ensures !Step(s, op).Panic?
    ensures Step(s, op).Returns? ==> Sound(Step(s, op).s)
  {
    hide Sound, Kept, Base, LockStep, Enqueue, Respond, RespondWithNewView, ReadByob, ReadDefault, Close;
    SoundIsBaseAndKept(s);
    if Step(s, op).Returns? {
      StepKeepsBase(s, op);
      SoundIsBaseAndKept(Step(s, op).s);
    }
    match op
    case AcquireReader(kind) => GetReaderKeeps(s, kind);
    case Release => ReleaseKeeps(s);
    case CancelStream => CancelKeeps(s);
    case DefaultRead => ReadDefaultKeepsBase(s); ReadDefaultKeeps(s);
    case ByobRead(memory, offset, element, len, min) => ReadByobKeeps(s, memory, offset, element, len, min);
    case EnqueueChunk(chunk) => EnqueueKeeps(s, chunk);
    case ByobRequest => SlotIsNotKept(s, GetByobRequest(s));
    case Answer(bytes) => AnswerKeeps(s, bytes);
    case AnswerWithView(view, at) => AnswerWithViewKeeps(s, view, at);
    case CloseStream => CloseKeeps(s);
    case ErrorStream(reason) => ErrorKeeps(s, s, reason);
    case StartFulfilled =>
      var t := s.(pull := s.pull.(started := true, settled := true));
      PullIsNotKept(s, t);
      KeptIgnoresPull(t);
    case StartRejected(reason) => ErrorKeeps(s, s.(pull := s.pull.(settled := true)), reason);
    case PullFulfilled => PullIsNotKept(s, Step(s, op).s);
    case PullRejected(reason) => ErrorKeeps(s, s.(pull := Reject(s.pull)), reason);
  }

  lemma SoundIsBaseAndKept(s: Stream)
    ensures Sound(s) <==> Base(s) && Kept(s)
  {
  }

  lemma PullIsNotKept(s: Stream, t: Stream)
    requires Kept(s) && t == s.(pull := t.pull)
    ensures Kept(t)
  {
  }

  lemma SlotIsNotKept(s: Stream, t: Stream)
    requires Kept(s) && t == s.(slot := t.slot)
    ensures Kept(t)
  {
  }

  lemma ErrorKeeps(s: Stream, t: Stream, reason: Reason)
    requires Sound(s) && t == s.(pull := t.pull)
    ensures Kept(ErrorInternal(t, reason))
  {
    if s.core.st == Readable {
      DeliveredIsPrefix(s);
      ErrorInternalKeeps(s, reason);
      PullIsNotKept(ErrorInternal(s, reason), ErrorInternal(t, reason));
    } else {
      PullIsNotKept(s, t);
    }
  }

  lemma NewStreamIsSound(mark: HighWaterMark, auto: nat)
    ensures Sound(NewStream(mark, auto))
  {
    NewStreamIsBase(mark, auto);
    var s := NewStream(mark, auto);
    assert Trail(s.core) == [];
    assert Delivered(s.core.log) == [] && Flatten(s.queue) == [];
  }

  // ---- Runs -------------------------------------------------------------------------------------

  /** A run stops at the first panic or hang; a reaction whose promise does not exist never fires. */
  function Run(s: Stream, ops: seq<Op>): Outcome
    decreases |ops|
  {
    if ops == [] then Returns(s, true)
    else if !Possible(s, ops[0]) then Run(s, ops[1..])
    else
      var r := Step(s, ops[0]);
      if r.Returns? then Run(r.s, ops[1..]) else r
  }

  ghost predicate AllRegular(s: Stream, ops: seq<Op>)
    decreases |ops|
  {
    ops == [] ||
    if !Possible(s, ops[0]) then AllRegular(s, ops[1..])
    else
      && Regular(s, ops[0])
      && (Step(s, ops[0]).Returns? ==> AllRegular(Step(s, ops[0]).s, ops[1..]))
  }

  /** Accounting, lifecycle, settling at most once and the pull protocol hold on every run. */
  lemma {:induction false} EveryRunKeepsBase(s: Stream, ops: seq<Op>)
    requires Base(s)
    ensures Run(s, ops).Returns? ==> Base(Run(s, ops).s)
    decreases |ops|
  {
    hide Base, Step, Possible;
    if ops != [] {
      if !Possible(s, ops[0]) {
        EveryRunKeepsBase(s, ops[1..]);
      } else if Step(s, ops[0]).Returns? {
        StepKeepsBase(s, ops[0]);
        EveryRunKeepsBase(Step(s, ops[0]).s, ops[1..]);
      }
    }
  }

  /** So does the line of descriptors behind a BYOB reader's requests. */
  lemma {:induction false} EveryRunKeepsRanked(s: Stream, ops: seq<Op>)
    requires Base(s) && Ranked(s)
    ensures Run(s, ops).Returns? ==> Base(Run(s, ops).s) && Ranked(Run(s, ops).s)
    decreases |ops|
  {
    hide Base, Ranked, Step, Possible;
    if ops != [] {
      if !Possible(s, ops[0]) {
        EveryRunKeepsRanked(s, ops[1..]);
      } else if Step(s, ops[0]).Returns? {
        StepKeepsBase(s, ops[0]);
        StepKeepsRanked(s, ops[0]);
        EveryRunKeepsRanked(Step(s, ops[0]).s, ops[1..]);
      }
    }
  }

  lemma {:induction false} RegularRunKeepsSound(s: Stream, ops: seq<Op>)
    requires Sound(s) && AllRegular(s, ops)
    ensures !Run(s, ops).Panic?
    ensures Run(s, ops).Returns? ==> Sound(Run(s, ops).s)
    decreases |ops|
  {
    hide Sound, Step, Possible, Regular;
    if ops != [] {
      if !Possible(s, ops[0]) {
        RegularRunKeepsSound(s, ops[1..]);
      } else {
        StepKeepsSound(s, ops[0]);
        if Step(s, ops[0]).Returns? {
          RegularRunKeepsSound(Step(s, ops[0]).s, ops[1..]);
        }
      }
    }
  }

  // ---- What single calls of a run meet ------------------------------------------------------------

  /** The run comes to call number `n`, and the call meets this condition on the state before it. */
  ghost predicate Meets(s: Stream, ops: seq<Op>, n: nat, condition: (Stream, Op) -> bool) {
    && n < |ops|
    && var r := Run(s, ops[..n]);
       r.Returns? && Possible(r.s, ops[n]) && condition(r.s, ops[n])
  }

  ghost predicate Happens(s: Stream, ops: seq<Op>, condition: (Stream, Op) -> bool) {
    exists n: nat :: Meets(s, ops, n, condition)
  }

  lemma MeetsFirst(s: Stream, ops: seq<Op>, condition: (Stream, Op) -> bool)
    requires ops != []
    ensures Meets(s, ops, 0, condition) <==> Possible(s, ops[0]) && condition(s, ops[0])
  {
    hide Possible;
  }

  lemma MeetsLater(s: Stream, ops: seq<Op>, n: nat, condition: (Stream, Op) -> bool)
    requires ops != []
    ensures Meets(s, ops, n + 1, condition) <==>
            if !Possible(s, ops[0]) then Meets(s, ops[1..], n, condition)
            else Step(s, ops[0]).Returns? && Meets(Step(s, ops[0]).s, ops[1..], n, condition)
  {
    hide Possible, Step;
    if n + 1 < |ops| {
      assert ops[..n + 1][0] == ops[0] && ops[..n + 1][1..] == ops[1..][..n];
    }
  }

  /** A condition is met by the first call or by a later one. */
  lemma HappensNowOrLater(s: Stream, ops: seq<Op>, condition: (Stream, Op) -> bool)
    ensures Happens(s, ops, condition) <==>
            ops != [] &&
            if !Possible(s, ops[0]) then Happens(s, ops[1..], condition)
            else condition(s, ops[0]) ||
                 (Step(s, ops[0]).Returns? && Happens(Step(s, ops[0]).s, ops[1..], condition))
  {
    hide Meets, Possible, Step;
    if ops == [] {
      assert forall n: nat :: !Meets(s, ops, n, condition) by { NoCallMeets(s, condition); }
    } else {
      MeetsFirst(s, ops, condition);
      if Happens(s, ops, condition) {
        var n: nat :| Meets(s, ops, n, condition);
        if n > 0 { MeetsLater(s, ops, n - 1, condition); }
      }
      var later := if Possible(s, ops[0]) && Step(s, ops[0]).Returns? then Step(s, ops[0]).s else s;
      if Happens(later, ops[1..], condition) {
        var n: nat :| Meets(later, ops[1..], n, condition);
        MeetsLater(s, ops, n, condition);
      }
    }
  }

  lemma NoCallMeets(s: Stream, condition: (Stream, Op) -> bool)
    ensures forall n: nat :: !Meets(s, [], n, condition)
  {
  }

  /** A run panics, or hangs, if and only if it comes to a call that meets the condition for it. */
  lemma {:induction false} RunOutcome(s: Stream, ops: seq<Op>)
    requires Base(s) && Ranked(s)
    ensures Run(s, ops).Panic? <==> Happens(s, ops, PanicsOn)
    ensures Run(s, ops).Hang? <==> Happens(s, ops, HangsOn)
    decreases |ops|
  {
    hide Base, Ranked, Step, Possible, Happens, PanicsOn, HangsOn;
    HappensNowOrLater(s, ops, PanicsOn);
    HappensNowOrLater(s, ops, HangsOn);
    if ops != [] {
      if !Possible(s, ops[0]) {
        RunOutcome(s, ops[1..]);
      } else {
        StepOutcome(s, ops[0]);
        if Step(s, ops[0]).Returns? {
          StepKeepsBase(s, ops[0]);
          StepKeepsRanked(s, ops[0]);
          RunOutcome(Step(s, ops[0]).s, ops[1..]);
        }
      }
    }
  }

  /** Every run of a new stream ends as its calls tell beforehand. */
  lemma EveryRunOutcome(mark: HighWaterMark, auto: nat, ops: seq<Op>)
    ensures var s := NewStream(mark, auto);
            && (Run(s, ops).Panic? <==> Happens(s, ops, PanicsOn))
            && (Run(s, ops).Hang? <==> Happens(s, ops, HangsOn))
  {
    hide Run, Happens, Base, Ranked;
    NewStreamIsBase(mark, auto);
    NewStreamIsRanked(mark, auto);
    RunOutcome(NewStream(mark, auto), ops);
  }

  // ---- The order in which reads settle ------------------------------------------------------------

  /** A run ends with its reads settled in order if and only if no read has overtaken another. */
  lemma {:induction false} OrderIff(s: Stream, ops: seq<Op>)
    requires Base(s) && Ranked(s) && Run(s, ops).Returns?
    ensures SettlesInOrder(Run(s, ops).s.core) <==> SettlesInOrder(s.core) && !Happens(s, ops, Overtakes)
    decreases |ops|
  {
    hide Base, Ranked, Step, Possible, Happens, Overtakes, SettlesInOrder;
    HappensNowOrLater(s, ops, Overtakes);
    if ops != [] {
      if !Possible(s, ops[0]) {
        OrderIff(s, ops[1..]);
      } else {
        StepKeepsBase(s, ops[0]);
        StepKeepsRanked(s, ops[0]);
        StepKeepsOrderIff(s, ops[0]);
        OrderIff(Step(s, ops[0]).s, ops[1..]);
      }
    }
  }

  /** Only after an answer to a detached read, made while default reads wait, can a read overtake another. */
  lemma {:induction false} OvertakingNeedsAnAnswer(s: Stream, ops: seq<Op>)
    requires Base(s) && Ranked(s) && NoneWaitsInVain(s)
    ensures Happens(s, ops, Overtakes) ==> Happens(s, ops, QueuesPastReads)
    decreases |ops|
  {
    hide Base, Ranked, Step, Possible, Happens, Overtakes, QueuesPastReads, NoneWaitsInVain;
    HappensNowOrLater(s, ops, Overtakes);
    HappensNowOrLater(s, ops, QueuesPastReads);
    if ops != [] {
      if !Possible(s, ops[0]) {
        OvertakingNeedsAnAnswer(s, ops[1..]);
      } else {
        VainReadsWait(s, ops[0]);
        if Step(s, ops[0]).Returns? && !QueuesPastReads(s, ops[0]) {
          StepKeepsBase(s, ops[0]);
          StepKeepsRanked(s, ops[0]);
          StepLeavesNone(s, ops[0]);
          OvertakingNeedsAnAnswer(Step(s, ops[0]).s, ops[1..]);
        }
      }
    }
  }

  lemma VainReadsWait(s: Stream, op: Op)
    requires NoneWaitsInVain(s)
    ensures !Overtakes(s, op)
  {
  }

  /** On every run a read that fails does so for its stream's error, or because its reader was released. */
  lemma {:induction false} EveryFailureIsTold(s: Stream, ops: seq<Op>)
    requires Base(s) && FailuresAreTold(s.core) && Run(s, ops).Returns?
    ensures FailuresAreTold(Run(s, ops).s.core)
    decreases |ops|
  {
    hide Base, FailuresAreTold, Step, Possible;
    if ops != [] {
      if !Possible(s, ops[0]) {
        EveryFailureIsTold(s, ops[1..]);
      } else {
        StepKeepsBase(s, ops[0]);
        StepIsTold(s, ops[0]);
        EveryFailureIsTold(Step(s, ops[0]).s, ops[1..]);
      }
    }
  }

  // ---- What reads are given -----------------------------------------------------------------------

  /** What a read gets fits what it asked for, unless an answer has gone to another read. */
  lemma {:induction false} FitsUnlessAnother(s: Stream, ops: seq<Op>)
    requires Base(s) && Ranked(s) && Fitting(s) && Run(s, ops).Returns?
    ensures !Happens(s, ops, AnswersAnother) ==> Fitting(Run(s, ops).s)
    decreases |ops|
  {
    hide Base, Ranked, Fitting, Step, Possible, Happens, AnswersAnother;
    HappensNowOrLater(s, ops, AnswersAnother);
    if ops != [] {
      if !Possible(s, ops[0]) {
        FitsUnlessAnother(s, ops[1..]);
      } else if !AnswersAnother(s, ops[0]) {
        StepKeepsBase(s, ops[0]);
        StepKeepsRanked(s, ops[0]);
        StepFits(s, ops[0]);
        FitsUnlessAnother(Step(s, ops[0]).s, ops[1..]);
      }
    }
  }

  ghost predicate NoAnswers(ops: seq<Op>) {
    forall i :: 0 <= i < |ops| ==> !ops[i].Answer? && !ops[i].AnswerWithView?
  }

  lemma WithoutAnswers(s: Stream, ops: seq<Op>)
    requires NoAnswers(ops)
    ensures !Happens(s, ops, QueuesPastReads) && !Happens(s, ops, AnswersAnother)
  {
    hide Run, Possible;
  }

  /** The state after any run of a new stream. */
  ghost predicate Reaches(mark: HighWaterMark, auto: nat, ops: seq<Op>, s: Stream) {
    Run(NewStream(mark, auto), ops) == Returns(s, true) || Run(NewStream(mark, auto), ops) == Returns(s, false)
  }

  /**
   No read settles twice; they settle in order if and only if none overtakes another, and so on every
   run without answers to detached reads; what they get fits unless an answer went to another read; the
   byte count is right; the source is pulled one call at a time.
   */
  lemma EveryRun(mark: HighWaterMark, auto: nat, ops: seq<Op>, s: Stream)
    requires Reaches(mark, auto, ops, s)
    ensures s.size == |Flatten(s.queue)| && NoEmptyChunk(s.queue)
    ensures SettlesOnce(s.core)
    ensures SettlesInOrder(s.core) <==> !Happens(NewStream(mark, auto), ops, Overtakes)
    ensures !Happens(NewStream(mark, auto), ops, QueuesPastReads) ==> SettlesInOrder(s.core)
    ensures !Happens(NewStream(mark, auto), ops, AnswersAnother) ==> AllFit(s.core.log, s.asks)
    ensures NoAnswers(ops) ==> SettlesInOrder(s.core) && AllFit(s.core.log, s.asks)
    ensures s.core.error.Some? <==> s.core.st == Errored
    ensures s.closeRequested ==> s.core.st != Readable
    ensures s.slot == Live ==> s.pending != []
    ensures s.core.st == Errored ==> s.core.requests == [] && s.pending == [] && s.queue == []
    ensures s.core.st == Closed && s.core.kind == DefaultReader ==> s.core.requests == []
    ensures OneAtATime(s.pull.trace) && CalledWhenAllowed(s.pull.trace)
    ensures s.pull.again ==> s.pull.pulling
  {
    NewStreamIsBase(mark, auto);
    EveryRunKeepsBase(NewStream(mark, auto), ops);
    EveryRunsOrder(mark, auto, ops, s);
    assert Base(s);
    hide Run, Happens, NoAnswers, NewStream, SettlesInOrder, AllFit, Reaches;
  }

  lemma EveryRunsOrder(mark: HighWaterMark, auto: nat, ops: seq<Op>, s: Stream)
    requires Reaches(mark, auto, ops, s)
    ensures SettlesInOrder(s.core) <==> !Happens(NewStream(mark, auto), ops, Overtakes)
    ensures !Happens(NewStream(mark, auto), ops, QueuesPastReads) ==> SettlesInOrder(s.core)
    ensures !Happens(NewStream(mark, auto), ops, AnswersAnother) ==> AllFit(s.core.log, s.asks)
    ensures NoAnswers(ops) ==> SettlesInOrder(s.core) && AllFit(s.core.log, s.asks)
  {
    hide Base, Ranked, Run, Happens, NoAnswers;
    var start := NewStream(mark, auto);
    NewStreamIsBase(mark, auto);
    NewStreamIsRanked(mark, auto);
    OrderIff(start, ops);
    OvertakingNeedsAnAnswer(start, ops);
    FitsUnlessAnother(start, ops);
    if NoAnswers(ops) { WithoutAnswers(start, ops); }
  }

  /**
   On a regular run no `unwrap` fails. Bytes delivered are a prefix of the bytes produced; while
   nothing has been thrown away the rest is exactly what is filled or queued; reads settle in the
   order issued; and every view is a whole number of elements between the minimum and the length.
   */
  lemma RegularRun(mark: HighWaterMark, auto: nat, ops: seq<Op>)
    requires AllRegular(NewStream(mark, auto), ops)
    ensures !Run(NewStream(mark, auto), ops).Panic?
    ensures forall s :: Reaches(mark, auto, ops, s) ==>
              && Delivered(s.core.log) <= s.produced
              && (s.core.st == Readable ==>
                    s.produced == Delivered(s.core.log) + FrontData(s.pending) + Flatten(s.queue))
              && SettlesInOrder(s.core)
              && AllFit(s.core.log, s.asks)
  {
    hide Sound, Run, AllRegular, NewStream, Delivered, Flatten;
    NewStreamIsSound(mark, auto);
    RegularRunKeepsSound(NewStream(mark, auto), ops);
    forall s | Reaches(mark, auto, ops, s)
      ensures Delivered(s.core.log) <= s.produced
      ensures s.core.st == Readable ==>
                s.produced == Delivered(s.core.log) + FrontData(s.pending) + Flatten(s.queue)
      ensures SettlesInOrder(s.core) && AllFit(s.core.log, s.asks)
    {
      SoundMeans(s);
    }
  }

  lemma SoundMeans(s: Stream)
    requires Sound(s)
    ensures Delivered(s.core.log) <= s.produced
    ensures s.core.st == Readable ==>
              s.produced == Delivered(s.core.log) + FrontData(s.pending) + Flatten(s.queue)
    ensures SettlesInOrder(s.core) && AllFit(s.core.log, s.asks)
  {
    hide LockStep, FollowsProtocol, Flatten, Delivered;
    DeliveredIsPrefix(s);
  }

  /**
   The two queues in step: while readable, a BYOB reader has as many requests as it has descriptors,
   pairwise; closed, at least as many descriptors; and bytes are queued only if no read waits.
   */
  lemma QueuesInStep(mark: HighWaterMark, auto: nat, ops: seq<Op>, s: Stream)
    requires AllRegular(NewStream(mark, auto), ops) && Reaches(mark, auto, ops, s)
    requires s.core.kind == ByobReader
    ensures Paired(Attached(s.pending), s.core.requests, s.asks)
    ensures s.core.st == Readable ==> |Attached(s.pending)| == |s.core.requests|
    ensures s.pending != [] ==> s.queue == []
  {
    NewStreamIsSound(mark, auto);
    RegularRunKeepsSound(NewStream(mark, auto), ops);
  }

  // ---- Closed and errored are final --------------------------------------------------------------

  /** The parts of a stream that stay as they are once it is closed or errored. */
  predicate SameFate(s: Stream, t: Stream) {
    && t.core.st == s.core.st && t.core.error == s.core.error
    && Calls(t.pull.trace) == Calls(s.pull.trace) && t.produced == s.produced
  }

  lemma FinalAnswer(s: Stream, bytes: seq<byte>)
    requires s.core.st != Readable && s.pending != [] && RespondInternal(s, bytes).Returns?
    ensures SameFate(s, RespondInternal(s, bytes).s)
  {
    hide Calls, DrainEvents, RespondReadable;
  }

  lemma FinalRead(s: Stream, op: Op)
    requires s.core.st != Readable && (op.DefaultRead? || op.ByobRead?) && Possible(s, op) && Step(s, op).Returns?
    ensures SameFate(s, Step(s, op).s)
  {
    hide Calls, ReadFromQueue;
  }

  lemma FinalReaction(s: Stream, op: Op)
    requires FollowsProtocol(s.pull) && s.core.st != Readable && Possible(s, op)
    requires op.StartFulfilled? || op.StartRejected? || op.PullFulfilled? || op.PullRejected?
    ensures Step(s, op).Returns? && SameFate(s, Step(s, op).s)
  {
    if op.PullFulfilled? {
      FulfilFollowsProtocol(s.pull, s.core.st, false);
    } else if op.PullRejected? {
      RejectFollowsProtocol(s.pull);
    }
    hide Calls, OneAtATime, CalledWhenAllowed, WantedSinceCall, InFlight;
  }

  /** A closed or errored stream stays so, keeps its error, and never calls its source again. */
  lemma ClosedAndErroredAreFinal(s: Stream, op: Op)
    requires Base(s) && Possible(s, op) && Step(s, op).Returns? && s.core.st != Readable
    ensures var t := Step(s, op).s;
            t.core.st == s.core.st && t.core.error == s.core.error && Calls(t.pull.trace) == Calls(s.pull.trace)
            && t.produced == s.produced
  {
    assert FollowsProtocol(s.pull);
    hide Base, FollowsProtocol, Calls, RespondInternal, ReadByob, ReadDefault, Evaluate, Fulfil, Reject, ReleaseCore;
    match op
    case Answer(bytes) =>
      if s.slot == Live && s.pending != [] && s.pending[0].rest != [] {
        FinalAnswer(s.(slot := Spent), bytes);
      }
    case AnswerWithView(view, _) =>
      if s.slot == Live && s.pending != [] && RespondInternal(s.(slot := Spent), view).Returns? {
        FinalAnswer(s.(slot := Spent), view);
      }
    case DefaultRead => FinalRead(s, op);
    case ByobRead(_, _, _, _, _) => FinalRead(s, op);
    case StartFulfilled => FinalReaction(s, op);
    case StartRejected(_) => FinalReaction(s, op);
    case PullFulfilled => FinalReaction(s, op);
    case PullRejected(_) => FinalReaction(s, op);
    case Release => ReleasedFate(s.core);
    case _ =>
  }

  lemma ReleasedFate(c: Core<seq<byte>>)
    ensures ReleaseCore(c).st == c.st && ReleaseCore(c).error == c.error
  {
  }

  /** So it is for the rest of any run. */
  lemma {:induction false} FinalForever(s: Stream, ops: seq<Op>)
    requires Base(s) && s.core.st != Readable
    ensures var r := Run(s, ops);
            r.Returns? ==>
              && r.s.core.st == s.core.st && r.s.core.error == s.core.error
              && Calls(r.s.pull.trace) == Calls(s.pull.trace) && r.s.produced == s.produced
    decreases |ops|
  {
    hide Base, Step, Possible;
    if ops != [] {
      if !Possible(s, ops[0]) {
        FinalForever(s, ops[1..]);
      } else if Step(s, ops[0]).Returns? {
        StepKeepsBase(s, ops[0]);
        ClosedAndErroredAreFinal(s, ops[0]);
        FinalForever(Step(s, ops[0]).s, ops[1..]);
      }
    }
  }
}
