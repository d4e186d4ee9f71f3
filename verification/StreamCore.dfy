/**
 The part of a ReadableStream that both kinds of controller share: its state, the kind of reader
 that locks it, that reader's queue of read requests, and the log of how requests were settled.
 */
module StreamCore {
  import opened Wrappers

  datatype State = Readable | Closed | Errored

  datatype ReaderKind = NoReader | DefaultReader | ByobReader

  datatype Reason = FromScript(value: nat) | ReaderReleased | PendingNotAligned | ClosedByRequest

  datatype HighWaterMark = Finite(level: real) | Infinite

  predicate Exceeds(mark: HighWaterMark, size: int) {
    mark == Infinite || mark.level > size as real
  }

  /** One call of a request's `chunk`, `close` or `error` closure; `id` names the read's promise. */
  datatype Event<+V> =
    | Served(id: nat, view: V)
    | Ended(id: nat, last: Option<V>)
    | Failed(id: nat, reason: Reason)

  /** `issued` counts the reads so far: read number k is given id k. */
  datatype Core<+V> = Core(
    st: State,
    error: Option<Reason>,
    kind: ReaderKind,
    requests: seq<nat>,
    issued: nat,
    log: seq<Event<V>>)

  function NewCore<V>(): Core<V> {
    Core(Readable, None, NoReader, [], 0, [])
  }

  function EndAll<V>(requests: seq<nat>): (events: seq<Event<V>>) {
    seq(|requests|, i requires 0 <= i < |requests| => Ended(requests[i], None))
  }

  function FailAll<V>(requests: seq<nat>, reason: Reason): (events: seq<Event<V>>) {
    seq(|requests|, i requires 0 <= i < |requests| => Failed(requests[i], reason))
  }

  /** ReadableStream::close on a readable stream: only a default reader's requests are settled. */
  function CloseCore<V>(c: Core<V>): Core<V> {
    if c.kind == DefaultReader then
      c.(st := Closed, log := c.log + EndAll(c.requests), requests := [])
    else
      c.(st := Closed)
  }

  /** ReadableStream::error on a readable stream. */
  function ErrorCore<V>(c: Core<V>, reason: Reason): Core<V> {
    c.(st := Errored, error := Some(reason), log := c.log + FailAll(c.requests, reason), requests := [])
  }

  /** CommonReader::release_lock: every waiting request fails. */
  function ReleaseCore<V>(c: Core<V>): Core<V> {
    c.(kind := NoReader, log := c.log + FailAll(c.requests, ReaderReleased), requests := [])
  }

  function Issue<V>(c: Core<V>): Core<V> {
    c.(issued := c.issued + 1)
  }

  function Settle<V>(c: Core<V>, e: Event<V>): Core<V> {
    c.(log := c.log + [e])
  }

  /** The error kept by an errored stream (undefined when there is none). */
  function StoredError<V>(c: Core<V>): Reason {
    if c.error.Some? then c.error.value else FromScript(0)
  }

  // ---- What every reachable stream satisfies -------------------------------------------------

  ghost predicate Lifecycle<V>(c: Core<V>) {
    && (c.error.Some? <==> c.st == Errored)
    && (c.requests != [] ==>
          (c.st == Readable && c.kind != NoReader) || (c.st == Closed && c.kind == ByobReader))
  }

  function Ids<V>(log: seq<Event<V>>): (ids: seq<nat>)
    ensures |ids| == |log|
    ensures forall i :: 0 <= i < |log| ==> ids[i] == log[i].id
  {
    seq(|log|, i requires 0 <= i < |log| => log[i].id)
  }

  /** Settled reads in the order they settled, then the waiting ones in queue order. */
  function Trail<V>(c: Core<V>): seq<nat> {
    Ids(c.log) + c.requests
  }

  ghost predicate Distinct(s: seq<nat>, bound: nat) {
    && (forall i :: 0 <= i < |s| ==> s[i] < bound)
    && (forall i, j :: 0 <= i < j < |s| ==> s[i] != s[j])
  }

  ghost predicate Increasing(s: seq<nat>, bound: nat) {
    && (forall i :: 0 <= i < |s| ==> s[i] < bound)
    && (forall i, j :: 0 <= i < j < |s| ==> s[i] < s[j])
  }

  /** No request is settled twice, and none that still waits has been settled. */
  ghost predicate SettlesOnce<V>(c: Core<V>) {
    Distinct(Trail(c), c.issued)
  }

  /** Requests settle in the order in which the reads were issued. */
  ghost predicate SettlesInOrder<V>(c: Core<V>) {
    Increasing(Trail(c), c.issued)
  }

  lemma InOrderIsOnce<V>(c: Core<V>)
    requires SettlesInOrder(c)
    ensures SettlesOnce(c)
  {
  }

  lemma IdsConcat<V>(a: seq<Event<V>>, b: seq<Event<V>>)
    ensures Ids(a + b) == Ids(a) + Ids(b)
  {
  }

  lemma IdsOfEndAll<V>(requests: seq<nat>)
    ensures Ids<V>(EndAll(requests)) == requests
  {
  }

  lemma IdsOfFailAll<V>(requests: seq<nat>, reason: Reason)
    ensures Ids<V>(FailAll(requests, reason)) == requests
  {
  }

  /** Closing, erroring and releasing settle whole queues; none of them changes the trail. */
  lemma BulkSettlingKeepsTrail<V>(c: Core<V>, reason: Reason)
    ensures Trail(CloseCore(c)) == Trail(c)
    ensures Trail(ErrorCore(c, reason)) == Trail(c)
    ensures Trail(ReleaseCore(c)) == Trail(c)
    ensures ErrorCore(c, reason).requests == [] && ReleaseCore(c).requests == []
    ensures c.kind == DefaultReader ==> CloseCore(c).requests == []
  {
    IdsConcat(c.log, EndAll(c.requests));
    IdsConcat(c.log, FailAll(c.requests, reason));
    IdsConcat(c.log, FailAll(c.requests, ReaderReleased));
    IdsOfEndAll<V>(c.requests);
    IdsOfFailAll<V>(c.requests, reason);
    IdsOfFailAll<V>(c.requests, ReaderReleased);
  }

  lemma InsertDistinct(t: seq<nat>, n: nat, x: nat)
    requires n <= |t| && Distinct(t, x)
    ensures Distinct(t[..n] + [x] + t[n..], x + 1)
  {
    var t' := t[..n] + [x] + t[n..];
    assert forall i :: 0 <= i < |t'| ==> t'[i] == if i < n then t[i] else if i == n then x else t[i - 1];
  }

  lemma InsertIncreasing(t: seq<nat>, n: nat, x: nat)
    requires n <= |t| && Distinct(t, x)
    ensures Increasing(t[..n] + [x] + t[n..], x + 1) <==> n == |t| && Increasing(t, x)
  {
    var t' := t[..n] + [x] + t[n..];
    if n < |t| {
      assert t'[n] == x && t'[n + 1] == t[n] < x;
    } else {
      assert t' == t + [x];
      assert forall i :: 0 <= i < |t| ==> t'[i] == t[i];
    }
  }


  /** A read settled on the spot keeps the order exactly when nothing was waiting. */
  lemma SettleNow<V>(c: Core<V>, e: Event<V>)
    requires SettlesOnce(c)
    requires e.id == c.issued
    ensures SettlesOnce(Settle(Issue(c), e))
    ensures SettlesInOrder(Settle(Issue(c), e)) <==> SettlesInOrder(c) && c.requests == []
  {
    hide Distinct, Increasing;
    var t, n := Trail(c), |c.log|;
    IdsConcat(c.log, [e]);
    assert Ids([e]) == [e.id];
    assert t[..n] == Ids(c.log) && t[n..] == c.requests;
    assert Trail(Settle(Issue(c), e)) == t[..n] + [e.id] + t[n..];
    InsertDistinct(t, n, c.issued);
    InsertIncreasing(t, n, c.issued);
  }

  lemma Wait<V>(c: Core<V>)
    requires SettlesOnce(c)
    ensures SettlesOnce(Issue(c).(requests := c.requests + [c.issued]))
    ensures SettlesInOrder(c) ==> SettlesInOrder(Issue(c).(requests := c.requests + [c.issued]))
  {
    var c' := Issue(c).(requests := c.requests + [c.issued]);
    assert Trail(c') == Trail(c) + [c.issued];
  }

  /** Settling the request at the head of the queue leaves the trail as it was. */
  lemma SettleHeadKeepsTrail<V>(c: Core<V>, e: Event<V>)
    requires c.requests != [] && e.id == c.requests[0]
    ensures Trail(Settle(c, e).(requests := c.requests[1..])) == Trail(c)
  {
    IdsConcat(c.log, [e]);
    assert Ids([e]) == [c.requests[0]];
  }

  // ---- How requests are settled ------------------------------------------------------------------

  /** Every waiting request has been settled, the oldest first, each as `how` says. */
  ghost predicate AllSettled<V>(c: Core<V>, c': Core<V>, how: nat -> Event<V>) {
    && c'.requests == [] && |c'.log| == |c.log| + |c.requests| && c.log <= c'.log
    && forall i :: 0 <= i < |c.requests| ==> c'.log[|c.log| + i] == how(c.requests[i])
  }

  ghost predicate Untouched<V>(c: Core<V>, c': Core<V>) {
    c'.log == c.log && c'.requests == c.requests && c'.issued == c.issued
  }

  /** Closing ends a default reader's reads; an error fails all with its reason; a release, with its own. */
  lemma BulkSettlingIs<V>(c: Core<V>, reason: Reason)
    ensures c.kind == DefaultReader ==> AllSettled(c, CloseCore(c), id => Ended(id, None))
    ensures c.kind != DefaultReader ==> Untouched(c, CloseCore(c))
    ensures AllSettled(c, ErrorCore(c, reason), id => Failed(id, reason))
    ensures AllSettled(c, ReleaseCore(c), id => Failed(id, ReaderReleased))
  {
  }

  /** A read fails for no other reason than the one its stream was errored with, or a release. */
  ghost predicate FailuresAreTold<V>(c: Core<V>) {
    forall i :: 0 <= i < |c.log| && c.log[i].Failed? ==>
      c.log[i].reason == ReaderReleased || c.error == Some(c.log[i].reason)
  }

  lemma BulkSettlingIsTold<V>(c: Core<V>, reason: Reason)
    requires FailuresAreTold(c)
    ensures FailuresAreTold(CloseCore(c)) && FailuresAreTold(ReleaseCore(c))
    ensures c.error == None ==> FailuresAreTold(ErrorCore(c, reason))
  {
  }

  /** What is settled from here on is told if each failure is the stream's error. */
  lemma MoreIsTold<V>(c: Core<V>, c': Core<V>, events: seq<Event<V>>)
    requires FailuresAreTold(c) && c'.log == c.log + events && c'.error == c.error
    requires forall i :: 0 <= i < |events| && events[i].Failed? ==> c.error == Some(events[i].reason)
    ensures FailuresAreTold(c')
  {
  }
}
