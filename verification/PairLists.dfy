/** Lists of names and values: what URLSearchParams does to them. */
module PairLists {
  import opened Wrappers
  import opened FormEncoding

  /** The values under one name, in order. */
  function GetAll(pairs: seq<Pair>, name: string): seq<string> {
    if pairs == [] then []
    else if pairs[0].0 == name then [pairs[0].1] + GetAll(pairs[1..], name)
    else GetAll(pairs[1..], name)
  }

  predicate Doomed(pair: Pair, name: string, value: Option<string>) {
    pair.0 == name && (value.Some? ==> pair.1 == value.value)
  }

  /** All pairs but those with the name (and the value, when one is given). */
  function Without(pairs: seq<Pair>, name: string, value: Option<string> := None): seq<Pair> {
    if pairs == [] then []
    else if Doomed(pairs[0], name, value) then Without(pairs[1..], name, value)
    else [pairs[0]] + Without(pairs[1..], name, value)
  }

  /** Where the name first occurs: at the end when it does not. */
  function FirstIndex(pairs: seq<Pair>, name: string): (k: nat)
    ensures k <= |pairs|
    ensures k < |pairs| ==> pairs[k].0 == name
    ensures forall i :: 0 <= i < k ==> pairs[i].0 != name
  {
    if pairs == [] || pairs[0].0 == name then 0 else 1 + FirstIndex(pairs[1..], name)
  }

  function SetPair(pairs: seq<Pair>, name: string, value: string): seq<Pair> {
    var k := FirstIndex(pairs, name);
    pairs[..k] + [(name, value)] + (if k == |pairs| then [] else Without(pairs[k + 1..], name))
  }

  // ---- Concatenation -----------------------------------------------------------------------------

  lemma {:induction false} GetAllConcat(a: seq<Pair>, b: seq<Pair>, name: string)
    ensures GetAll(a + b, name) == GetAll(a, name) + GetAll(b, name)
  {
    if a == [] {
      assert a + b == b;
    } else {
      assert (a + b)[0] == a[0] && (a + b)[1..] == a[1..] + b;
      GetAllConcat(a[1..], b, name);
      assert [a[0].1] + (GetAll(a[1..], name) + GetAll(b, name)) == [a[0].1] + GetAll(a[1..], name) + GetAll(b, name);
    }
  }

  lemma {:induction false} WithoutConcat(a: seq<Pair>, b: seq<Pair>, name: string, value: Option<string>)
    ensures Without(a + b, name, value) == Without(a, name, value) + Without(b, name, value)
  {
    if a == [] {
      assert a + b == b;
    } else {
      assert (a + b)[0] == a[0] && (a + b)[1..] == a[1..] + b;
      WithoutConcat(a[1..], b, name, value);
      var p, q := Without(a[1..], name, value), Without(b, name, value);
      assert [a[0]] + (p + q) == [a[0]] + p + q;
    }
  }

  lemma {:induction false} NameAbsent(pairs: seq<Pair>, name: string)
    requires forall i :: 0 <= i < |pairs| ==> pairs[i].0 != name
    ensures GetAll(pairs, name) == [] && Without(pairs, name) == pairs
  {
    if pairs != [] {
      NameAbsent(pairs[1..], name);
      assert [pairs[0]] + pairs[1..] == pairs;
    }
  }

  // ---- delete ------------------------------------------------------------------------------------

  function DropValue(values: seq<string>, value: string): seq<string> {
    if values == [] then []
    else if values[0] == value then DropValue(values[1..], value)
    else [values[0]] + DropValue(values[1..], value)
  }

  lemma GetAllCons(pair: Pair, rest: seq<Pair>, name: string)
    ensures GetAll([pair] + rest, name) == if pair.0 == name then [pair.1] + GetAll(rest, name) else GetAll(rest, name)
  {
    assert ([pair] + rest)[1..] == rest;
  }

  /** delete takes the name's values, or just those equal to the given one ... */
  lemma {:induction false} DeleteTakes(pairs: seq<Pair>, name: string, value: Option<string>)
    ensures GetAll(Without(pairs, name, value), name) ==
            if value.Some? then DropValue(GetAll(pairs, name), value.value) else []
  {
    if pairs != [] {
      DeleteTakes(pairs[1..], name, value);
      GetAllCons(pairs[0], Without(pairs[1..], name, value), name);
      if value.Some? && pairs[0].0 == name {
        assert ([pairs[0].1] + GetAll(pairs[1..], name))[1..] == GetAll(pairs[1..], name);
      }
    }
  }

  /** ... and every other name keeps its values. */
  lemma {:induction false} DeleteKeeps(pairs: seq<Pair>, name: string, value: Option<string>, other: string)
    requires other != name
    ensures GetAll(Without(pairs, name, value), other) == GetAll(pairs, other)
  {
    if pairs != [] {
      DeleteKeeps(pairs[1..], name, value, other);
      GetAllCons(pairs[0], Without(pairs[1..], name, value), other);
    }
  }

  // ---- set ---------------------------------------------------------------------------------------

  /**
   set leaves the name with the one value, in the place where the name first stood (or at the end),
   and all other pairs as they were, in the order they were ...
   */
  lemma SetTakes(pairs: seq<Pair>, name: string, value: string)
    ensures var r := SetPair(pairs, name, value);
            && GetAll(r, name) == [value]
            && FirstIndex(r, name) == FirstIndex(pairs, name)
            && Without(r, name) == Without(pairs, name)
  {
    var k := FirstIndex(pairs, name);
    var before := pairs[..k];
    var after := if k == |pairs| then [] else Without(pairs[k + 1..], name);
    var rest := [(name, value)] + after;
    assert SetPair(pairs, name, value) == before + rest;
    hide FirstIndex;
    NameAbsent(before, name);
    FirstIndexAfter(before, rest, name);
    if k < |pairs| {
      WithoutHasNone(pairs[k + 1..], name);
      SplitAround(pairs, k, name);
    } else {
      assert before == pairs;
    }
    NameAbsent(after, name);
    GetAllConcat(before, rest, name);
    GetAllCons((name, value), after, name);
    WithoutConcat(before, rest, name, None);
    assert rest[1..] == after;
  }

  /** ... so that every other name keeps its values. */
  lemma SetKeeps(pairs: seq<Pair>, name: string, value: string, other: string)
    requires other != name
    ensures GetAll(SetPair(pairs, name, value), other) == GetAll(pairs, other)
  {
    var r := SetPair(pairs, name, value);
    SetTakes(pairs, name, value);
    DeleteKeeps(r, name, None, other);
    DeleteKeeps(pairs, name, None, other);
  }

  lemma {:induction false} FirstIndexAfter(before: seq<Pair>, rest: seq<Pair>, name: string)
    requires forall i :: 0 <= i < |before| ==> before[i].0 != name
    requires rest != [] && rest[0].0 == name
    ensures FirstIndex(before + rest, name) == |before|
  {
    if before == [] {
      assert before + rest == rest;
    } else {
      assert (before + rest)[0] == before[0] && (before + rest)[1..] == before[1..] + rest;
      FirstIndexAfter(before[1..], rest, name);
    }
  }

  lemma {:induction false} WithoutHasNone(pairs: seq<Pair>, name: string)
    ensures forall i :: 0 <= i < |Without(pairs, name)| ==> Without(pairs, name)[i].0 != name
  {
    if pairs != [] {
      WithoutHasNone(pairs[1..], name);
    }
  }

  lemma SplitAround(pairs: seq<Pair>, k: nat, name: string)
    requires k < |pairs| && pairs[k].0 == name
    requires forall i :: 0 <= i < k ==> pairs[i].0 != name
    ensures Without(pairs, name) == pairs[..k] + Without(pairs[k + 1..], name)
  {
    var before, from := pairs[..k], pairs[k..];
    assert pairs == before + from && from[1..] == pairs[k + 1..];
    NameAbsent(before, name);
    WithoutConcat(before, from, name, None);
  }

  /** What SetTakes says of the result leaves no choice. */
  lemma {:induction false} SetIsDetermined(a: seq<Pair>, b: seq<Pair>, name: string, value: string)
    requires GetAll(a, name) == GetAll(b, name) == [value]
    requires Without(a, name) == Without(b, name) && FirstIndex(a, name) == FirstIndex(b, name)
    ensures a == b
  {
    assert a != [] && b != [];
    if a[0].0 == name {
      OnlyFirst(a, name, value);
      OnlyFirst(b, name, value);
    } else {
      var p, q := a[1..], b[1..];
      assert b[0].0 != name;
      assert Without(a, name) == [a[0]] + Without(p, name) && Without(b, name) == [b[0]] + Without(q, name);
      assert ([a[0]] + Without(p, name))[1..] == Without(p, name);
      assert ([b[0]] + Without(q, name))[1..] == Without(q, name);
      assert GetAll(a, name) == GetAll(p, name) && GetAll(b, name) == GetAll(q, name);
      SetIsDetermined(p, q, name, value);
      assert a == [a[0]] + p && b == [b[0]] + q;
    }
  }

  lemma OnlyFirst(pairs: seq<Pair>, name: string, value: string)
    requires pairs != [] && pairs[0].0 == name && GetAll(pairs, name) == [value]
    ensures pairs == [(name, value)] + Without(pairs, name)
  {
    var rest := pairs[1..];
    assert |GetAll(pairs, name)| == 1 + |GetAll(rest, name)| && GetAll(pairs, name)[0] == pairs[0].1;
    GetAllEmpty(rest, name);
    NameAbsent(rest, name);
    assert pairs == [pairs[0]] + rest;
  }

  lemma {:induction false} GetAllEmpty(pairs: seq<Pair>, name: string)
    requires GetAll(pairs, name) == []
    ensures forall i :: 0 <= i < |pairs| ==> pairs[i].0 != name
  {
    if pairs != [] {
      assert pairs[0].0 != name;
      GetAllEmpty(pairs[1..], name);
    }
  }
}
