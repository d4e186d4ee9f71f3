/** Answering a BYOB request: what `respond` does to the reads of the reader that locks the stream. */
module ByteAnswers {
  import opened Chunks
  import opened StreamCore
  import opened PullInto
  import opened ByteStream
  import opened ByteLifecycle
  import opened ByteDelivery
  import opened ByteSteps

  /** An answer keeps every byte: the committed view and the unaligned tail make up what was filled. */
  lemma TailSplit(d: Descriptor)
    requires WellShaped(d) && d.min <= d.Filled()
    ensures var tail := d.Filled() % d.element;
            var view := d.View();
            && view + d.data[d.Filled() - tail..] == d.data
            && |view| % d.element == 0 && d.min <= |view|
  {
    RoundDown(d.Filled(), d.element);
    RoundDownAbove(d.Filled(), d.min, d.element);
  }

  lemma AbsorbKeepsShape(d: Descriptor, bytes: seq<byte>)
    requires WellShaped(d) && |bytes| <= |d.rest|
    ensures var d' := d.Absorb(bytes); WellShaped(d') && d'.data == d.data + bytes && d'.Length() == d.Length()
  {
  }

  /** The state once the source has written `bytes` into the front descriptor. */
  function Written(s: Stream, bytes: seq<byte>): Stream
    requires s.pending != [] && |bytes| <= |s.pending[0].rest|
  {
    s.(slot := Vacant, pending := s.pending[0 := s.pending[0].Absorb(bytes)], produced := s.produced + bytes)
  }

  lemma WrittenFacts(s: Stream, bytes: seq<byte>)
    requires Sound(s) && s.core.st == Readable && s.pending != [] && s.pending[0].kind == ByobReader
    requires |bytes| <= |s.pending[0].rest|
    ensures var t := Written(s, bytes);
            && s.core.kind == ByobReader && s.queue == [] && !s.dropped
            && |t.pending| == |s.core.requests| && Paired(t.pending, s.core.requests, s.asks)
            && Attached(t.pending) == t.pending && Attached(t.pending[1..]) == t.pending[1..]
            && AllPending(t.pending[1..]) && FrontOnly(t.pending) && FrontData(t.pending[1..]) == []
            && WellShaped(t.pending[0]) && LockStep(t)
            && t.produced == Delivered(t.core.log) + t.pending[0].data
  {
    hide WellShaped, Unsatisfied, Delivered;
    var t := Written(s, bytes);
    var d := s.pending[0];
    AbsorbKeepsShape(d, bytes);
    FlattenOfNone<byte>();
    assert Attached(s.pending) == s.pending && Attached(t.pending) == t.pending;
    assert t.pending[1..] == s.pending[1..];
    assert Delivered(s.core.log) + d.data + [] + bytes == Delivered(s.core.log) + (d.data + bytes);
    forall i | 0 <= i < |s.core.requests|
      ensures Matches(t.pending[i], s.asks[s.core.requests[i]])
    {
      assert Matches(s.pending[i], s.asks[s.core.requests[i]]);
    }
  }

  lemma RespondReadableKeeps(s: Stream, bytes: seq<byte>)
    requires Sound(s) && s.core.st == Readable && s.pending != [] && s.pending[0].kind == ByobReader
    requires |bytes| <= |s.pending[0].rest|
    ensures var r := RespondReadable(Written(s, bytes)); !r.Panic? && (r.Returns? ==> Kept(r.s))
  {
    hide Flatten, Delivered, Ids, Process, WellShaped, Fits, Matches;
    WrittenFacts(s, bytes);
    var t := Written(s, bytes);
    var d := t.pending[0];
    if d.Filled() < d.min {
      FlattenOfNone<byte>();
      assert Delivered(t.core.log) + d.data + [] == Delivered(t.core.log) + d.data;
    } else {
      CommitFront(s, t);
      RespondCommits(t);
      var u, queue := Committed(t), TailQueue(d);
      ProcessFromQueueKeeps(u, queue, u.size + d.Filled() % d.element);
      var r := ProcessDescriptors(u.(queue := queue, size := u.size + d.Filled() % d.element));
      if r.Returns? { KeptIgnoresPull(r.s); }
    }
  }

  function TailQueue(d: Descriptor): seq<seq<byte>> {
    var tail := d.Filled() % d.element;
    if tail > 0 then [d.data[d.Filled() - tail..]] else []
  }

  /** The state after the front descriptor has been committed to the first waiting request. */
  function Committed(t: Stream): Stream
    requires t.pending != [] && t.core.requests != []
  {
    var d := t.pending[0];
    var e := CommitEvent(d.(data := d.View()), t.core.requests[0], t.core.st);
    t.(pending := t.pending[1..], core := Settle(t.core, e).(requests := t.core.requests[1..]))
  }

  lemma TailQueueHolds(d: Descriptor)
    requires WellShaped(d) && d.min <= d.Filled()
    ensures NoEmptyChunk(TailQueue(d))
    ensures d.View() + Flatten(TailQueue(d)) == d.data
    ensures d.(data := d.View()).View() == d.View()
    ensures |d.View()| % d.element == 0 && d.min <= |d.View()| <= d.Length()
  {
    TailSplit(d);
    var tail := d.Filled() % d.element;
    FlattenOfNone<byte>();
    FlattenPush([], d.data[d.Filled() - tail..]);
    assert [] + [d.data[d.Filled() - tail..]] == [d.data[d.Filled() - tail..]];
  }

  lemma CommitFront(s: Stream, t: Stream)
    requires Base(s) && SettlesInOrder(s.core) && AllFit(s.core.log, s.asks)
    requires t == s.(pending := t.pending, slot := t.slot, produced := t.produced)
    requires s.core.st == Readable && s.core.kind == ByobReader && s.queue == [] && t.pending != []
    requires WellShaped(t.pending[0]) && t.pending[0].min <= t.pending[0].Filled()
    requires t.pending[0].kind == ByobReader && FrontData(t.pending[1..]) == []
    requires |t.pending| == |s.core.requests| && Paired(t.pending, s.core.requests, s.asks)
    requires forall i :: 0 <= i < |t.pending| ==> t.pending[i].kind == ByobReader
    requires t.produced == Delivered(t.core.log) + t.pending[0].data
    ensures var u := Committed(t);
            var queue := TailQueue(t.pending[0]);
            && SettlesInOrder(u.core) && SettlesOnce(u.core)
            && AllFit(u.core.log, u.asks) && LockStep(u)
            && NoEmptyChunk(queue)
            && u.produced == Delivered(u.core.log) + FrontData(u.pending) + Flatten(queue)
  {
    hide Flatten, Delivered, Ids, WellShaped, Fits, ViewOf, EndAll, FailAll;
    var d := t.pending[0];
    TailQueueHolds(d);
    var u, queue := Committed(t), TailQueue(d);
    var e := CommitEvent(d.(data := d.View()), t.core.requests[0], Readable);
    assert Fits(e, u.asks[e.id]) && ViewOf(e) == d.View() by {
      assert Matches(d, s.asks[s.core.requests[0]]);
      CommittedFits(d, t.core.requests[0], s.asks[s.core.requests[0]]);
    }
    assert Trail(u.core) == Trail(s.core) by { SettleHeadKeepsTrail(s.core, e); }
    assert AllFit(u.core.log, u.asks) by { FitPush(s.core.log, e, s.asks); }
    assert u.produced == Delivered(u.core.log) + FrontData(u.pending) + Flatten(queue) by {
      DeliveredPush(s.core.log, e);
      assert Delivered(s.core.log) + (d.View() + Flatten(queue))
          == (Delivered(s.core.log) + d.View()) + [] + Flatten(queue);
    }
    assert LockStep(u) by { PairedTail(t.pending, s.core.requests, s.asks); }
  }

  lemma CommittedFits(d: Descriptor, id: nat, ask: Ask)
    requires WellShaped(d) && d.min <= d.Filled() && Matches(d, ask)
    ensures var e := CommitEvent(d.(data := d.View()), id, Readable); Fits(e, ask) && ViewOf(e) == d.View()
  {
    TailQueueHolds(d);
  }

  lemma PairedTail(pending: seq<Descriptor>, requests: seq<nat>, asks: seq<Ask>)
    requires pending != [] && |pending| == |requests| && Paired(pending, requests, asks)
    requires forall i :: 0 <= i < |pending| ==> pending[i].kind == ByobReader
    ensures Paired(pending[1..], requests[1..], asks) && Attached(pending[1..]) == pending[1..]
    ensures forall i :: 0 <= i < |pending[1..]| ==> pending[1..][i].kind == ByobReader
  {
    forall i | 0 <= i < |requests[1..]|
      ensures requests[1..][i] < |asks| && Matches(pending[1..][i], asks[requests[1..][i]])
    {
      assert Matches(pending[i + 1], asks[requests[i + 1]]);
    }
  }

  /** `respond` on a satisfied descriptor commits it, puts its tail back and goes on processing. */
  lemma RespondCommits(t: Stream)
    requires t.pending != [] && t.core.requests != [] && t.queue == [] && t.core.kind == ByobReader
    requires t.pending[0].kind == ByobReader && t.pending[0].min <= t.pending[0].Filled()
    ensures RespondReadable(t) ==
            (var d := t.pending[0];
             var r := ProcessDescriptors(Committed(t).(queue := TailQueue(d), size := t.size + d.Filled() % d.element));
             if r.Returns? then Returns(PullIfNeeded(r.s), true) else r)
  {
    hide ProcessDescriptors, PullIfNeeded, CommitEvent, Flatten;
    var d := t.pending[0];
    var tail := d.Filled() % d.element;
    var popped := t.(pending := t.pending[1..]);
    if tail > 0 {
      var chunk := d.data[d.Filled() - tail..];
      assert [] + [chunk] == [chunk];
      var pushed := PushChunk(popped, chunk);
      assert pushed == popped.(queue := TailQueue(d), size := t.size + tail);
      assert RespondReadable(t) == (var r := CommitThenProcess(pushed, d.(data := d.View()));
                                    if r.Returns? then Returns(PullIfNeeded(r.s), true) else r);
    } else {
      assert popped == popped.(queue := TailQueue(d), size := t.size + tail);
      assert RespondReadable(t) == (var r := CommitThenProcess(popped, d.(data := d.View()));
                                    if r.Returns? then Returns(PullIfNeeded(r.s), true) else r);
    }
  }

  // ---- Closed streams ---------------------------------------------------------------------------

  lemma DrainDelivers(pending: seq<Descriptor>, requests: seq<nat>)
    requires |requests| <= |pending| && FrontOnly(pending)
    requires pending != [] ==> pending[0].Filled() % pending[0].element == 0
    ensures Delivered(DrainEvents(pending, requests)) + FrontData(pending[|requests|..]) == FrontData(pending)
  {
    var events := DrainEvents(pending, requests);
    if requests == [] {
      assert pending[0..] == pending;
    } else {
      assert ViewOf(events[0]) == pending[0].data;
      forall i | 0 <= i < |events[1..]| ensures ViewOf(events[1..][i]) == [] {
        assert events[1..][i] == CommitEvent(pending[i + 1], requests[i + 1], Closed);
      }
      NothingDelivered(events[1..]);
      assert FrontData(pending[|requests|..]) == [];
    }
  }

  lemma EndedFits(d: Descriptor, id: nat, ask: Ask)
    requires Matches(d, ask)
    ensures var e := CommitEvent(d, id, Closed); e.id == id && Fits(e, ask)
  {
    RoundDown(d.Filled(), d.element);
  }

  lemma DrainFits(pending: seq<Descriptor>, requests: seq<nat>, asks: seq<Ask>)
    requires Paired(pending, requests, asks)
    ensures AllFit(DrainEvents(pending, requests), asks)
  {
    hide Fits, Matches, CommitEvent;
    var events := DrainEvents(pending, requests);
    forall i | 0 <= i < |events| ensures events[i].id < |asks| && Fits(events[i], asks[events[i].id]) {
      assert events[i] == CommitEvent(pending[i], requests[i], Closed);
      EndedFits(pending[i], requests[i], asks[requests[i]]);
    }
  }


  /** Every read that still waits on a closed stream is settled, with what had been filled. */
  lemma RespondClosedKeeps(s: Stream)
    requires Sound(s) && s.core.st == Closed && s.pending != [] && s.slot != Live
    requires RegularAnswer(s)
    ensures RespondClosed(s).Returns? && Kept(RespondClosed(s).s)
  {
    if s.core.kind == ByobReader {
      assert Attached(s.pending) == s.pending;
      var n := |s.core.requests|;
      var events := DrainEvents(s.pending, s.core.requests);
      var u := s.(pending := s.pending[n..], core := s.core.(requests := [], log := s.core.log + events));
      DrainedKeeps(s, u);
      KeptIgnoresPull(u);
    } else {
      assert Detached(s.pending) || Attached(s.pending)[0].kind == s.core.kind;
      PoppedKeeps(s);
      KeptIgnoresPull(s.(pending := s.pending[1..]));
    }
  }

  lemma PoppedKeeps(s: Stream)
    requires Sound(s) && s.core.st == Closed && s.core.kind != ByobReader
    requires s.pending != [] && s.pending[0].data == []
    ensures Kept(s.(pending := s.pending[1..]))
  {
    hide WellShaped, Unsatisfied, Fits, Flatten, Delivered;
    var u := s.(pending := s.pending[1..]);
    var attached := Attached(s.pending);
    assert if Detached(s.pending) then u.pending == attached else u.pending == attached[1..];
    assert u.pending == [] || (u.pending[0].data == [] && u.pending[0].kind == s.core.kind);
    assert Attached(u.pending) == u.pending;
  }

  lemma DrainedConserves(s: Stream, u: Stream)
    requires Conserved(s) && FrontOnly(s.pending) && |s.core.requests| <= |s.pending|
    requires s.pending != [] ==> s.pending[0].Filled() % s.pending[0].element == 0
    requires u == s.(pending := s.pending[|s.core.requests|..],
                     core := s.core.(requests := [], log := s.core.log + DrainEvents(s.pending, s.core.requests)))
    requires s.dropped ==> s.pending == []
    ensures Conserved(u)
  {
    hide Flatten, Delivered, DrainEvents, FrontOnly;
    var events := DrainEvents(s.pending, s.core.requests);
    DrainDelivers(s.pending, s.core.requests);
    DeliveredConcat(s.core.log, events);
    assert Delivered(s.core.log) + (Delivered(events) + FrontData(u.pending)) + Flatten(s.queue)
        == (Delivered(s.core.log) + Delivered(events)) + FrontData(u.pending) + Flatten(s.queue);
    if s.dropped {
      NothingFrom(events, u.pending);
    }
  }

  lemma NothingFrom(events: seq<Event<seq<byte>>>, pending: seq<Descriptor>)
    ensures Delivered(events) + FrontData(pending) == [] ==> Delivered(events) == []
  {
    hide Delivered;
  }

  lemma DrainedPending(s: Stream, n: nat)
    requires AllPending(s.pending) && FrontOnly(s.pending) && n <= |s.pending|
    requires Attached(s.pending) == s.pending && s.core.kind == ByobReader
    requires forall i :: 0 <= i < |s.pending| ==> s.pending[i].kind == ByobReader
    requires s.pending != [] ==> s.pending[0].Filled() % s.pending[0].element == 0
    ensures var left := s.pending[n..];
            && AllPending(left) && FrontOnly(left) && Attached(left) == left
            && (forall i :: 0 <= i < |left| ==> left[i].kind == ByobReader)
            && (left != [] ==> left[0].Filled() % left[0].element == 0)
  {
    hide WellShaped, Unsatisfied;
    if n > 0 && n < |s.pending| { NothingIsAligned(s.pending[n]); }
  }

  lemma NothingIsAligned(d: Descriptor)
    ensures d.data == [] ==> d.Filled() % d.element == 0
  {
  }

  lemma AttachedKinds(s: Stream)
    requires Sound(s) && s.core.kind == ByobReader
    ensures forall i :: 0 <= i < |Attached(s.pending)| ==> Attached(s.pending)[i].kind == ByobReader
    ensures Paired(Attached(s.pending), s.core.requests, s.asks) && AllFit(s.core.log, s.asks) && Conserved(s)
    ensures s.dropped ==> s.pending == []
  {
    hide WellShaped, Unsatisfied, Fits, Flatten, Delivered, SettlesInOrder, SettlesOnce, Shapes;
  }

  lemma DrainedKeeps(s: Stream, u: Stream)
    requires Sound(s) && s.core.st == Closed && s.core.kind == ByobReader && Attached(s.pending) == s.pending
    requires |s.core.requests| <= |s.pending| && s.pending != []
    requires u == s.(pending := s.pending[|s.core.requests|..],
                     core := s.core.(requests := [], log := s.core.log + DrainEvents(s.pending, s.core.requests)))
    ensures Kept(u)
  {
    var events := DrainEvents(s.pending, s.core.requests);
    AttachedKinds(s);
    DrainKeepsTrail(s);
    DrainFits(s.pending, s.core.requests, s.asks);
    FitConcat(s.core.log, events, s.asks);
    DrainedConserves(s, u);
    DrainedPending(s, |s.core.requests|);
    hide Base, DrainEvents, AllFit, Conserved, AllPending, FrontOnly, Matches, Trail;
  }


  // ---- Both entry points ------------------------------------------------------------------------

  lemma RespondInternalKeeps(s: Stream, bytes: seq<byte>)
    requires Sound(s) && s.slot != Live && s.pending != [] && RegularAnswer(s)
    ensures var r := RespondInternal(s, bytes); !r.Panic? && (r.Returns? ==> Kept(r.s))
  {
    if s.core.st == Closed && bytes == [] {
      RespondClosedKeeps(s.(slot := Vacant));
    } else if s.core.st == Readable && bytes != [] && |bytes| <= |s.pending[0].rest| {
      RespondReadableKeeps(s, bytes);
      var d := s.pending[0].Absorb(bytes);
      assert Written(s, bytes) == s.(slot := Vacant, pending := s.pending[0 := d], produced := s.produced + bytes);
    }
  }

  lemma AnswerKeeps(s: Stream, bytes: seq<byte>)
    requires Sound(s) && RegularAnswer(s)
    ensures var r := Respond(s, bytes); !r.Panic? && (r.Returns? ==> Kept(r.s))
  {
    if s.slot == Live && s.pending[0].rest != [] {
      RespondInternalKeeps(s.(slot := Spent), bytes);
    }
  }

  lemma AnswerWithViewKeeps(s: Stream, view: seq<byte>, at: nat)
    requires Sound(s) && RegularAnswer(s)
    ensures var r := RespondWithNewView(s, view, at); !r.Panic? && (r.Returns? ==> Kept(r.s))
  {
    SoundIsKept(s);
    if s.slot == Live {
      SpentStaysSound(s);
      hide Sound, Kept, RespondInternal;
      RespondInternalKeeps(s.(slot := Spent), view);
      SoundIsKept(s.(slot := Spent));
    }
  }

  lemma SpentStaysSound(s: Stream)
    requires Sound(s) && s.slot == Live
    ensures Sound(s.(slot := Spent)) && s.pending != [] && s.core.st != Errored
  {
    hide AllFit, SettlesInOrder, SettlesOnce, Flatten, NoEmptyChunk, Delivered, AllPending, Shapes;
  }
}
