/**
 Rooting in a Context: one arena for each kind of garbage-collected thing, a log of the order in
 which things were rooted, and the drop that must unroot them last in, first out.
 */
module ContextRoots {
  import opened Wrappers

  datatype Kind =
    | Value | Object | String | Script | PropertyKey | PropertyDescriptor | Function | BigInt | Symbol

  const ALL_KINDS := {Value, Object, String, Script, PropertyKey, PropertyDescriptor, Function, BigInt, Symbol}

  lemma EveryKind(kind: Kind)
    ensures kind in ALL_KINDS
  {
    match kind
    case Value => case Object => case String => case Script => case PropertyKey =>
    case PropertyDescriptor => case Function => case BigInt => case Symbol =>
  }

  datatype Root = Root(kind: Kind, id: nat)

  /** The roots of one kind among the given ones, in the same order. */
  function OfKind(roots: seq<Root>, kind: Kind): seq<Root> {
    if roots == [] then []
    else OfKind(roots[..|roots| - 1], kind) + (if roots[|roots| - 1].kind == kind then [roots[|roots| - 1]] else [])
  }

  function Kinds(roots: seq<Root>): (kinds: seq<Kind>)
    ensures |kinds| == |roots|
  {
    seq(|roots|, i requires 0 <= i < |roots| => roots[i].kind)
  }

  function Reversed<T>(s: seq<T>): (r: seq<T>)
    ensures |r| == |s|
  {
    seq(|s|, i requires 0 <= i < |s| => s[|s| - 1 - i])
  }

  lemma OfKindPush(roots: seq<Root>, r: Root, kind: Kind)
    ensures OfKind(roots + [r], kind) == OfKind(roots, kind) + (if r.kind == kind then [r] else [])
  {
    assert (roots + [r])[..|roots|] == roots;
  }

  /**
   Unroots the roots in the given order; removing any but the newest is an error. This is the model's
   reading of `remove_from_root_stack`, whose code is not part of this model: one list stands for the
   whole stack of roots.
   */
  function Unroot(live: seq<Root>, removals: seq<Root>): Option<seq<Root>>
    decreases |removals|
  {
    if removals == [] then Some(live)
    else if live == [] || live[|live| - 1] != removals[0] then None
    else Unroot(live[..|live| - 1], removals[1..])
  }

  lemma {:induction false} UnrootingInReverseEmpties(live: seq<Root>)
    ensures Unroot(live, Reversed(live)) == Some([])
    decreases |live|
  {
    if live != [] {
      var r := Reversed(live);
      var rest := live[..|live| - 1];
      assert r[0] == live[|live| - 1];
      assert r[1..] == Reversed(rest);
      UnrootingInReverseEmpties(rest);
    } else {
      assert Reversed(live) == [];
    }
  }

  class Context {
    /** RootedArena: what each arena has allocated, oldest first. */
    var arenas: map<Kind, seq<Root>>
    var order: seq<Kind>
    /** Every root made through this context, oldest first. */
    ghost var rooted: seq<Root>

    constructor ()
      ensures Valid() && rooted == []
    {
      arenas := map kind | kind in ALL_KINDS :: [];
      order := [];
      rooted := [];
      new;
      forall kind: Kind ensures kind in arenas { EveryKind(kind); }
    }

    ghost predicate Valid()
      reads this
    {
      && order == Kinds(rooted)
      && (forall kind: Kind :: kind in arenas && arenas[kind] == OfKind(rooted, kind))
    }

    method Alloc(r: Root)
      requires r.kind in arenas
      modifies this`arenas
      ensures arenas == old(arenas)[r.kind := old(arenas)[r.kind] + [r]]
    {
      arenas := arenas[r.kind := arenas[r.kind] + [r]];
    }

    method Root(r: Root)
      requires Valid()
      modifies this
      ensures Valid() && rooted == old(rooted) + [r]
    {
      forall kind: Kind
        ensures OfKind(rooted + [r], kind) == OfKind(rooted, kind) + (if r.kind == kind then [r] else [])
      {
        OfKindPush(rooted, r, kind);
      }
      Alloc(r);
      order := order + [r.kind];
      rooted := rooted + [r];
    }

    /**
     Drop: walks `order` backwards, taking from each kind's reversed arena in turn. It removes
     exactly what was rooted, newest first, and the `unwrap` of `next` never fails.
     */
    method Drop() returns (removed: seq<Root>)
      requires Valid()
      modifies this`order
      ensures removed == Reversed(rooted)
      ensures order == []
    {
      removed := [];
      var left := arenas;
      ghost var live := rooted;
      while order != []
        invariant order == Kinds(live) && live <= rooted
        invariant forall kind: Kind :: kind in left && left[kind] == OfKind(live, kind)
        invariant removed == Reversed(rooted[|live|..])
        modifies this`order
        decreases |order|
      {
        var kind := order[|order| - 1];
        order := order[..|order| - 1];
        ghost var newest := live[|live| - 1];
        ghost var rest := live[..|live| - 1];
        assert live == rest + [newest] && newest.kind == kind;
        forall k: Kind ensures OfKind(live, k) == OfKind(rest, k) + (if newest.kind == k then [newest] else []) {
          OfKindPush(rest, newest, k);
        }
        var arena := left[kind];
        assert arena != [] && arena[|arena| - 1] == newest;
        var root := arena[|arena| - 1];
        left := left[kind := arena[..|arena| - 1]];
        assert rooted[|rest|..] == [newest] + rooted[|live|..];
        removed := removed + [root];
        live := rest;
      }
      assert rooted[0..] == rooted;
    }
  }

  /** Any sequence of `root` calls followed by the drop unroots everything, last in first out. */
  method RootAllThenDrop(roots: seq<Root>) returns (removed: seq<Root>)
    ensures removed == Reversed(roots) && Unroot(roots, removed) == Some([])
  {
    var cx := new Context();
    var i := 0;
    while i < |roots|
      invariant 0 <= i <= |roots|
      invariant fresh(cx) && cx.Valid() && cx.rooted == roots[..i]
    {
      cx.Root(roots[i]);
      i := i + 1;
    }
    assert roots[..i] == roots;
    removed := cx.Drop();
    UnrootingInReverseEmpties(roots);
  }
}
