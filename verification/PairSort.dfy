/** Sorting pairs by the UTF-16 code units of their names. */
module PairSort {
  import opened FormEncoding
  import opened PairLists

  function Units(c: char): (units: seq<nat>)
    ensures 1 <= |units| <= 2
    ensures |units| == 2 <==> 0xD800 <= units[0] < 0xDC00
  {
    var n := c as int;
    if n < 0x10000 then [n] else [0xD800 + (n - 0x10000) / 0x400, 0xDC00 + (n - 0x10000) % 0x400]
  }

  function Utf16(s: string): seq<nat> {
    if s == "" then [] else Units(s[0]) + Utf16(s[1..])
  }

  predicate LexLe(a: seq<nat>, b: seq<nat>) {
    a == [] || (b != [] && (a[0] < b[0] || (a[0] == b[0] && LexLe(a[1..], b[1..]))))
  }

  predicate NameLe(a: string, b: string) {
    LexLe(Utf16(a), Utf16(b))
  }

  function Insert(pair: Pair, pairs: seq<Pair>): seq<Pair> {
    if pairs == [] || NameLe(pair.0, pairs[0].0) then [pair] + pairs
    else [pairs[0]] + Insert(pair, pairs[1..])
  }

  function Sorted(pairs: seq<Pair>): seq<Pair> {
    if pairs == [] then [] else Insert(pairs[0], Sorted(pairs[1..]))
  }

  ghost predicate InOrder(pairs: seq<Pair>) {
    forall i, j :: 0 <= i < j < |pairs| ==> NameLe(pairs[i].0, pairs[j].0)
  }

  /** Every name has the same values, in the same order. */
  ghost predicate SameValues(a: seq<Pair>, b: seq<Pair>) {
    forall name :: GetAll(a, name) == GetAll(b, name)
  }

  ghost predicate IsStableSort(result: seq<Pair>, pairs: seq<Pair>) {
    InOrder(result) && SameValues(result, pairs)
  }

  // ---- The order on names --------------------------------------------------------------------------

  lemma {:induction false} LexTotal(a: seq<nat>, b: seq<nat>)
    ensures LexLe(a, b) || LexLe(b, a)
  {
    if a != [] && b != [] { LexTotal(a[1..], b[1..]); }
  }

  lemma {:induction false} LexTransitive(a: seq<nat>, b: seq<nat>, c: seq<nat>)
    requires LexLe(a, b) && LexLe(b, c)
    ensures LexLe(a, c)
  {
    if a != [] && a[0] == b[0] == c[0] { LexTransitive(a[1..], b[1..], c[1..]); }
  }

  lemma {:induction false} LexAntisymmetric(a: seq<nat>, b: seq<nat>)
    requires LexLe(a, b) && LexLe(b, a)
    ensures a == b
  {
    if a != [] {
      LexAntisymmetric(a[1..], b[1..]);
      assert a == [a[0]] + a[1..] && b == [b[0]] + b[1..];
    }
  }

  lemma UnitsDecode(a: char, b: char, p: seq<nat>, q: seq<nat>)
    requires Units(a) + p == Units(b) + q
    ensures a == b && p == q
  {
    var s, t := Units(a) + p, Units(b) + q;
    assert s[0] == Units(a)[0] && t[0] == Units(b)[0];
    assert |Units(a)| == |Units(b)|;
    assert p == s[|Units(a)|..] && q == t[|Units(b)|..];
    if |Units(a)| == 2 {
      assert s[1] == Units(a)[1] && t[1] == Units(b)[1];
      SurrogatesDecode(a as int - 0x10000, b as int - 0x10000);
    }
  }

  lemma SurrogatesDecode(m: nat, n: nat)
    requires m / 0x400 == n / 0x400 && m % 0x400 == n % 0x400
    ensures m == n
  {
    assert m == m / 0x400 * 0x400 + m % 0x400 && n == n / 0x400 * 0x400 + n % 0x400;
  }

  /** Names with the same code units are the same. */
  lemma {:induction false} Utf16Decodes(a: string, b: string)
    requires Utf16(a) == Utf16(b)
    ensures a == b
  {
    hide Units;
    if a != "" && b != "" {
      UnitsDecode(a[0], b[0], Utf16(a[1..]), Utf16(b[1..]));
      Utf16Decodes(a[1..], b[1..]);
      assert a == [a[0]] + a[1..] && b == [b[0]] + b[1..];
    }
  }

  lemma NameOrder(a: string, b: string)
    ensures NameLe(a, b) || NameLe(b, a)
    ensures NameLe(a, b) && NameLe(b, a) ==> a == b
  {
    LexTotal(Utf16(a), Utf16(b));
    if NameLe(a, b) && NameLe(b, a) {
      LexAntisymmetric(Utf16(a), Utf16(b));
      Utf16Decodes(a, b);
    }
  }

  /** The order is not that of the characters themselves. */
  lemma UnitsAreNotScalars(a: string, b: string)
    requires a == ['\U{FFFD}'] && b == ['\U{10000}']
    ensures a[0] < b[0] && !NameLe(a, b)
  {
    assert a[1..] == "" && b[1..] == "";
    assert Utf16(a) == [0xFFFD] && Utf16(b) == [0xD800, 0xDC00];
  }

  // ---- Sorting -------------------------------------------------------------------------------------

  lemma {:induction false} InsertKeepsValues(pair: Pair, pairs: seq<Pair>, name: string)
    ensures GetAll(Insert(pair, pairs), name) == GetAll([pair] + pairs, name)
  {
    hide NameLe;
    GetAllCons(pair, pairs, name);
    if pairs != [] && !NameLe(pair.0, pairs[0].0) {
      InsertKeepsValues(pair, pairs[1..], name);
      GetAllCons(pairs[0], Insert(pair, pairs[1..]), name);
      GetAllCons(pair, pairs[1..], name);
      NotBoth(pair.0, pairs[0].0);
    }
  }

  lemma NotBoth(a: string, b: string)
    requires !NameLe(a, b)
    ensures a != b
  {
    hide LexLe, Utf16;
    NameOrder(a, b);
  }

  lemma {:induction false} InsertContains(pair: Pair, pairs: seq<Pair>)
    ensures forall p :: p in Insert(pair, pairs) <==> p == pair || p in pairs
  {
    hide NameLe;
    if pairs != [] && !NameLe(pair.0, pairs[0].0) {
      InsertContains(pair, pairs[1..]);
      assert forall p :: p in pairs <==> p == pairs[0] || p in pairs[1..];
    }
  }

  lemma InOrderCons(pair: Pair, pairs: seq<Pair>)
    requires InOrder(pairs) && forall p :: p in pairs ==> NameLe(pair.0, p.0)
    ensures InOrder([pair] + pairs)
  {
    hide NameLe;
  }

  lemma InOrderTail(pairs: seq<Pair>)
    requires InOrder(pairs) && pairs != []
    ensures InOrder(pairs[1..])
  {
    hide NameLe;
  }

  lemma NameTransitive(a: string, b: string, c: string)
    requires NameLe(a, b) && NameLe(b, c)
    ensures NameLe(a, c)
  {
    LexTransitive(Utf16(a), Utf16(b), Utf16(c));
  }

  lemma {:induction false} InsertInOrder(pair: Pair, pairs: seq<Pair>)
    requires InOrder(pairs)
    ensures InOrder(Insert(pair, pairs))
  {
    hide NameLe, InOrder;
    if pairs == [] {
      InOrderCons(pair, pairs);
    } else if NameLe(pair.0, pairs[0].0) {
      forall p | p in pairs ensures NameLe(pair.0, p.0) {
        FirstIsLeast(pairs, p);
        NameTransitive(pair.0, pairs[0].0, p.0);
      }
      InOrderCons(pair, pairs);
    } else {
      InOrderTail(pairs);
      InsertInOrder(pair, pairs[1..]);
      InsertContains(pair, pairs[1..]);
      NameOrder(pair.0, pairs[0].0);
      forall p | p in Insert(pair, pairs[1..]) ensures NameLe(pairs[0].0, p.0) {
        if p != pair { FirstIsLeast(pairs, p); }
      }
      InOrderCons(pairs[0], Insert(pair, pairs[1..]));
    }
  }

  lemma FirstIsLeast(pairs: seq<Pair>, p: Pair)
    requires InOrder(pairs) && p in pairs
    ensures NameLe(pairs[0].0, p.0)
  {
    hide LexLe, Utf16;
    NameOrder(p.0, p.0);
    var i :| 0 <= i < |pairs| && pairs[i] == p;
  }

  /** The result is in order, and every name has its values in the order they had. */
  lemma {:induction false} SortedIsStable(pairs: seq<Pair>)
    ensures IsStableSort(Sorted(pairs), pairs)
  {
    hide NameLe, Insert;
    if pairs != [] {
      var rest := Sorted(pairs[1..]);
      SortedIsStable(pairs[1..]);
      InsertInOrder(pairs[0], rest);
      forall name ensures GetAll(Sorted(pairs), name) == GetAll(pairs, name) {
        InsertKeepsValues(pairs[0], rest, name);
        GetAllCons(pairs[0], rest, name);
        assert GetAll(rest, name) == GetAll(pairs[1..], name);
      }
    }
  }

  // ---- No other list is a stable sort --------------------------------------------------------------

  lemma {:induction false} HasValue(pairs: seq<Pair>, p: Pair)
    requires p in pairs
    ensures GetAll(pairs, p.0) != []
  {
    if pairs[0] != p { HasValue(pairs[1..], p); }
  }

  lemma {:induction false} HasPair(pairs: seq<Pair>, name: string)
    requires GetAll(pairs, name) != []
    ensures exists i :: 0 <= i < |pairs| && pairs[i].0 == name
  {
    if pairs[0].0 != name {
      HasPair(pairs[1..], name);
      var i :| 0 <= i < |pairs[1..]| && pairs[1..][i].0 == name;
      assert pairs[i + 1].0 == name;
    }
  }

  lemma FirstNameIsLeast(a: seq<Pair>, b: seq<Pair>)
    requires a != [] && InOrder(b) && SameValues(a, b)
    ensures b != [] && NameLe(b[0].0, a[0].0)
  {
    hide NameLe, InOrder;
    HasValue(a, a[0]);
    HasPair(b, a[0].0);
    var i :| 0 <= i < |b| && b[i].0 == a[0].0;
    FirstIsLeast(b, b[i]);
  }

  /** Order and unchanged values determine the list. */
  lemma {:induction false} StableSortIsUnique(a: seq<Pair>, b: seq<Pair>)
    requires InOrder(a) && InOrder(b) && SameValues(a, b)
    ensures a == b
  {
    hide NameLe;
    if a != [] {
      FirstNameIsLeast(a, b);
      FirstNameIsLeast(b, a);
      NameOrder(a[0].0, b[0].0);
      var name := a[0].0;
      assert GetAll(a, name)[0] == a[0].1 && GetAll(b, name)[0] == b[0].1;
      var p, q := a[1..], b[1..];
      forall n ensures GetAll(p, n) == GetAll(q, n) {
        assert GetAll(a, n) == GetAll(b, n);
        if n == name {
          assert GetAll(a, n)[1..] == GetAll(p, n) && GetAll(b, n)[1..] == GetAll(q, n);
        }
      }
      StableSortIsUnique(p, q);
      assert a == [a[0]] + p && b == [b[0]] + q;
    } else if b != [] {
      FirstNameIsLeast(b, a);
    }
  }

  lemma {:induction false} CountByName(pairs: seq<Pair>, p: Pair)
    ensures multiset(pairs)[p] == multiset(GetAll(pairs, p.0))[p.1]
  {
    if pairs != [] {
      CountByName(pairs[1..], p);
      assert pairs == [pairs[0]] + pairs[1..];
    }
  }

  /** A sort is a permutation. */
  lemma SameValuesPermute(a: seq<Pair>, b: seq<Pair>)
    requires SameValues(a, b)
    ensures multiset(a) == multiset(b)
  {
    forall p ensures multiset(a)[p] == multiset(b)[p] {
      CountByName(a, p);
      CountByName(b, p);
    }
  }
}
