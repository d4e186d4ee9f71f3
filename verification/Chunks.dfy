/** Chunk queues: the bytes they hold, in order, and what is left after taking some from the front. */
module Chunks {
  newtype byte = x: int | 0 <= x < 0x100

  function Flatten<T>(queue: seq<seq<T>>): seq<T> {
    if queue == [] then [] else queue[0] + Flatten(queue[1..])
  }

  /** What remains of the queue after its first `n` elements have been consumed. */
  function DropFirst<T>(queue: seq<seq<T>>, n: nat): seq<seq<T>>
    requires n <= |Flatten(queue)|
  {
    if n == 0 then queue
    else if |queue[0]| <= n then DropFirst(queue[1..], n - |queue[0]|)
    else [queue[0][n..]] + queue[1..]
  }

  ghost predicate NoEmptyChunk<T>(queue: seq<seq<T>>) {
    forall i :: 0 <= i < |queue| ==> queue[i] != []
  }

  lemma {:induction false} FlattenConcat<T>(a: seq<seq<T>>, b: seq<seq<T>>)
    ensures Flatten(a + b) == Flatten(a) + Flatten(b)
  {
    if a == [] {
      assert a + b == b;
    } else {
      FlattenConcat(a[1..], b);
      ConcatTail(a, b);
      assert a[0] + (Flatten(a[1..]) + Flatten(b)) == a[0] + Flatten(a[1..]) + Flatten(b);
    }
  }

  lemma ConcatTail<T>(a: seq<T>, b: seq<T>)
    requires a != []
    ensures (a + b)[0] == a[0] && (a + b)[1..] == a[1..] + b
  {
  }

  lemma FlattenOfNone<T>()
    ensures Flatten<T>([]) == []
  {
  }

  lemma FlattenPush<T>(queue: seq<seq<T>>, chunk: seq<T>)
    ensures Flatten(queue + [chunk]) == Flatten(queue) + chunk
  {
    FlattenConcat(queue, [chunk]);
    assert Flatten([chunk]) == chunk + Flatten([]);
  }

  /** Consuming from the chunk queue is taking a prefix of the byte string it stands for. */
  lemma {:induction false} DropFirstFlattens<T>(queue: seq<seq<T>>, n: nat)
    requires n <= |Flatten(queue)|
    requires NoEmptyChunk(queue)
    ensures Flatten(DropFirst(queue, n)) == Flatten(queue)[n..]
    ensures NoEmptyChunk(DropFirst(queue, n))
    decreases |queue|
  {
    if n == 0 {
    } else if |queue[0]| <= n {
      DropFirstFlattens(queue[1..], n - |queue[0]|);
    } else {
      var rest := [queue[0][n..]] + queue[1..];
      assert rest[1..] == queue[1..];
    }
  }

  lemma EmptyQueueHoldsNothing<T>(queue: seq<seq<T>>)
    requires NoEmptyChunk(queue)
    ensures |Flatten(queue)| == 0 <==> queue == []
  {
    if queue != [] {
      assert |queue[0]| > 0;
    }
  }
}
