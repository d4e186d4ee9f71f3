/** Splitting and joining sequences at a separator. */
module Text {
  import opened Wrappers

  function Split<T(==)>(s: seq<T>, sep: T): (parts: seq<seq<T>>)
    ensures |parts| > 0
  {
    if s == [] then [[]]
    else if s[0] == sep then [[]] + Split(s[1..], sep)
    else
      var rest := Split(s[1..], sep);
      [[s[0]] + rest[0]] + rest[1..]
  }

  function Join<T>(parts: seq<seq<T>>, sep: T): seq<T> {
    if parts == [] then []
    else if |parts| == 1 then parts[0]
    else parts[0] + [sep] + Join(parts[1..], sep)
  }

  /** The parts around the first separator. */
  function SplitOnce<T(==)>(s: seq<T>, sep: T): Option<(seq<T>, seq<T>)> {
    if s == [] then None
    else if s[0] == sep then Some(([], s[1..]))
    else
      match SplitOnce(s[1..], sep)
      case None => None
      case Some((a, b)) => Some(([s[0]] + a, b))
  }

  /** The parts around the last separator. */
  function SplitLast<T(==)>(s: seq<T>, sep: T): Option<(seq<T>, seq<T>)> {
    if s == [] then None
    else if s[|s| - 1] == sep then Some((s[..|s| - 1], []))
    else
      match SplitLast(s[..|s| - 1], sep)
      case None => None
      case Some((a, b)) => Some((a, b + [s[|s| - 1]]))
  }

  lemma {:induction false} SplitAtFirst<T>(a: seq<T>, b: seq<T>, sep: T)
    requires sep !in a
    ensures Split(a + [sep] + b, sep) == [a] + Split(b, sep)
    ensures SplitOnce(a + [sep] + b, sep) == Some((a, b))
  {
    var s := a + [sep] + b;
    if a == [] {
      assert s[0] == sep && s[1..] == b;
    } else {
      SplitAtFirst(a[1..], b, sep);
      assert s[0] == a[0] && s[1..] == a[1..] + [sep] + b;
      assert [a[0]] + a[1..] == a;
    }
  }

  lemma {:induction false} SplitNowhere<T>(a: seq<T>, sep: T)
    requires sep !in a
    ensures Split(a, sep) == [a] && SplitOnce(a, sep) == None
  {
    if a != [] {
      SplitNowhere(a[1..], sep);
      assert [a[0]] + a[1..] == a;
    }
  }

  lemma {:induction false} SplitAtLast<T>(a: seq<T>, b: seq<T>, sep: T)
    requires sep !in b
    ensures SplitLast(a + [sep] + b, sep) == Some((a, b))
    decreases |b|
  {
    var s := a + [sep] + b;
    if b == [] {
      assert s[..|s| - 1] == a && s[|s| - 1] == sep;
    } else {
      var init := b[..|b| - 1];
      SplitAtLast(a, init, sep);
      assert s[..|s| - 1] == a + [sep] + init && s[|s| - 1] == b[|b| - 1];
      assert init + [b[|b| - 1]] == b;
    }
  }

  /** Splitting undoes joining, for parts without the separator. */
  lemma {:induction false} SplitJoin<T>(parts: seq<seq<T>>, sep: T)
    requires parts != [] && forall i :: 0 <= i < |parts| ==> sep !in parts[i]
    ensures Split(Join(parts, sep), sep) == parts
  {
    if |parts| == 1 {
      SplitNowhere(parts[0], sep);
    } else {
      SplitJoin(parts[1..], sep);
      SplitAtFirst(parts[0], Join(parts[1..], sep), sep);
    }
  }

  /** No part of a split contains the separator. */
  lemma {:induction false} SplitPartsAreFree<T>(s: seq<T>, sep: T)
    ensures forall i :: 0 <= i < |Split(s, sep)| ==> sep !in Split(s, sep)[i]
  {
    if s != [] {
      SplitPartsAreFree(s[1..], sep);
    }
  }

  /** Splitting at a separator splits the parts on both sides of it on their own. */
  lemma {:induction false} SplitConcat<T>(a: seq<T>, b: seq<T>, sep: T)
    ensures Split(a + [sep] + b, sep) == Split(a, sep) + Split(b, sep)
  {
    var s := a + [sep] + b;
    if a == [] {
      assert s[0] == sep && s[1..] == b;
    } else {
      assert s[0] == a[0] && s[1..] == a[1..] + [sep] + b;
      SplitConcat(a[1..], b, sep);
    }
  }
}
