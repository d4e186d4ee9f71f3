/**
 The pull protocol of CommonController, as a machine over its flags.
 `outstanding` says that a promise returned by the source's `pull` has not settled yet;
 `trace` records what happened, so that claims can speak about whole runs.
 */
module PullProtocol {
  import opened StreamCore

  datatype Note =
    | Called(st: State, started: bool)  // the source's `pull` was called, in this situation
    | Wanted                            // a pull was wanted while one was under way
    | Fulfilled
    | Rejected

  datatype Pull = Pull(
    started: bool,
    settled: bool,   // the promise of the source's `start` has settled
    pulling: bool,
    again: bool,
    outstanding: bool,
    trace: seq<Note>)

  const Idle := Pull(false, false, false, false, false, [])

  /** pull_if_needed, once should_call_pull has answered `want`. */
  function Evaluate(p: Pull, st: State, want: bool): Pull {
    if !want then p
    else if p.pulling then p.(again := true, trace := p.trace + [Wanted])
    else p.(pulling := true, outstanding := true, trace := p.trace + [Called(st, p.started)])
  }

  /** The reaction to a fulfilled pull promise. */
  function Fulfil(p: Pull, st: State, want: bool): Pull {
    var q := p.(outstanding := false, pulling := false, trace := p.trace + [Fulfilled]);
    if p.again then Evaluate(q.(again := false), st, want) else q
  }

  /** The reaction to a rejected pull promise; the stream is then errored by the controller. */
  function Reject(p: Pull): Pull {
    p.(outstanding := false, trace := p.trace + [Rejected])
  }

  // ---- Reading a trace ------------------------------------------------------------------------

  /** Pull promises handed out and not settled, after the first `n` notes. */
  function InFlight(trace: seq<Note>): int {
    if trace == [] then 0
    else
      var last := trace[|trace| - 1];
      InFlight(trace[..|trace| - 1]) +
      (if last.Called? then 1 else if last == Wanted then 0 else -1)
  }

  /** Was a pull wanted since the source was last called? */
  predicate WantedSinceCall(trace: seq<Note>) {
    trace != [] &&
    var last := trace[|trace| - 1];
    !last.Called? && (last == Wanted || WantedSinceCall(trace[..|trace| - 1]))
  }

  function Calls(trace: seq<Note>): nat {
    if trace == [] then 0
    else Calls(trace[..|trace| - 1]) + (if trace[|trace| - 1].Called? then 1 else 0)
  }

  /** At no moment of the run are two pull promises pending. */
  ghost predicate OneAtATime(trace: seq<Note>) {
    forall n :: 0 <= n <= |trace| ==> 0 <= InFlight(trace[..n]) <= 1
  }

  /** Every call found the stream readable and the source started. */
  ghost predicate CalledWhenAllowed(trace: seq<Note>) {
    forall i :: 0 <= i < |trace| && trace[i].Called? ==> trace[i].st == Readable && trace[i].started
  }

  ghost predicate FollowsProtocol(p: Pull) {
    && (p.started ==> p.settled)
    && (p.outstanding ==> p.pulling)
    && (p.again ==> p.pulling)
    && InFlight(p.trace) == (if p.outstanding then 1 else 0)
    && OneAtATime(p.trace)
    && CalledWhenAllowed(p.trace)
    && (p.pulling ==> p.again == WantedSinceCall(p.trace))
  }

  lemma ExtendTrace(trace: seq<Note>, note: Note)
    requires OneAtATime(trace)
    requires 0 <= InFlight(trace + [note]) <= 1
    ensures OneAtATime(trace + [note])
  {
    var longer := trace + [note];
    forall n | 0 <= n <= |longer| ensures 0 <= InFlight(longer[..n]) <= 1 {
      if n <= |trace| {
        assert longer[..n] == trace[..n];
      } else {
        assert longer[..n] == longer;
      }
    }
  }

  lemma NoteEffect(trace: seq<Note>, note: Note)
    ensures InFlight(trace + [note]) ==
            InFlight(trace) + (if note.Called? then 1 else if note == Wanted then 0 else -1)
    ensures WantedSinceCall(trace + [note]) <==> !note.Called? && (note == Wanted || WantedSinceCall(trace))
    ensures Calls(trace + [note]) == Calls(trace) + (if note.Called? then 1 else 0)
  {
    assert (trace + [note])[..|trace|] == trace;
  }

  /** `want` is what should_call_pull answers: only for a readable stream whose source has started. */
  lemma EvaluateFollowsProtocol(p: Pull, st: State, want: bool)
    requires FollowsProtocol(p)
    requires want ==> st == Readable && p.started
    ensures FollowsProtocol(Evaluate(p, st, want))
    ensures Calls(Evaluate(p, st, want).trace) == Calls(p.trace) + (if want && !p.pulling then 1 else 0)
  {
    if want {
      var note := if p.pulling then Wanted else Called(st, p.started);
      NoteEffect(p.trace, note);
      ExtendTrace(p.trace, note);
    }
  }

  /**
   A fulfilled pull promise re-evaluates the need to pull exactly when one was wanted in the
   meantime, and then once: the source is called once more if a pull is still needed, else not.
   */
  lemma FulfilFollowsProtocol(p: Pull, st: State, want: bool)
    requires FollowsProtocol(p) && p.outstanding
    requires want ==> st == Readable && p.started
    ensures FollowsProtocol(Fulfil(p, st, want))
    ensures Calls(Fulfil(p, st, want).trace) ==
            Calls(p.trace) + (if WantedSinceCall(p.trace) && want then 1 else 0)
    ensures !Fulfil(p, st, want).again
    ensures Fulfil(p, st, want).outstanding <==> WantedSinceCall(p.trace) && want
  {
    NoteEffect(p.trace, Fulfilled);
    ExtendTrace(p.trace, Fulfilled);
    var q := p.(outstanding := false, pulling := false, again := false, trace := p.trace + [Fulfilled]);
    if p.again {
      EvaluateFollowsProtocol(q, st, want);
    }
  }

  /** After a rejected pull the source is never called again: `pulling` stays set. */
  lemma RejectFollowsProtocol(p: Pull)
    requires FollowsProtocol(p) && p.outstanding
    ensures FollowsProtocol(Reject(p)) && Reject(p).pulling && !Reject(p).outstanding
    ensures Calls(Reject(p).trace) == Calls(p.trace)
  {
    NoteEffect(p.trace, Rejected);
    ExtendTrace(p.trace, Rejected);
  }

  /** What one evaluation does to the flags and to the number of calls. */
  lemma EvaluateCalls(p: Pull, st: State, want: bool)
    ensures var q := Evaluate(p, st, want);
            && Calls(q.trace) == Calls(p.trace) + (if want && !p.pulling then 1 else 0)
            && q.pulling == (p.pulling || want) && q.again == (p.again || (want && p.pulling))
  {
    NoteEffect(p.trace, Wanted);
    NoteEffect(p.trace, Called(st, p.started));
  }

  lemma FulfilCalls(p: Pull, st: State, want: bool)
    ensures var q := Fulfil(p, st, want);
            && Calls(q.trace) == Calls(p.trace) + (if p.again && want then 1 else 0)
            && q.pulling == (p.again && want) && !q.again
  {
    NoteEffect(p.trace, Fulfilled);
    EvaluateCalls(p.(outstanding := false, pulling := false, again := false, trace := p.trace + [Fulfilled]), st, want);
  }
}
