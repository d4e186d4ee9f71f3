/** normalise_path: resolving `.` and `..` in a path without looking at the file system. */
module NormalPath {
  import opened Wrappers
  import opened Text

  datatype Component = RootDir | CurDir | ParentDir | Normal(name: string)

  // ---- Paths as strings -------------------------------------------------------------------------

  predicate Rooted(path: string) {
    path != "" && path[0] == '/'
  }

  /** Empty segments and `.` are skipped, except a leading `.` of a relative path. */
  function SegmentComponents(segments: seq<string>): seq<Component> {
    if segments == [] then []
    else
      (match segments[0]
       case "" => []
       case "." => []
       case ".." => [ParentDir]
       case name => [Normal(name)]) + SegmentComponents(segments[1..])
  }

  /** Path::components on Unix. */
  function Components(path: string): seq<Component> {
    var segments := Split(path, '/');
    (if Rooted(path) then [RootDir] else if segments[0] == "." then [CurDir] else [])
    + SegmentComponents(segments)
  }

  function SegmentOf(c: Component): string {
    match c
    case ParentDir => ".."
    case CurDir => "."
    case Normal(name) => name
    case RootDir => ""
  }

  function Segments(cs: seq<Component>): (segments: seq<string>)
    ensures |segments| == |cs|
  {
    seq(|cs|, i requires 0 <= i < |cs| => SegmentOf(cs[i]))
  }

  /** The string a PathBuf holds after the components have been pushed one by one. */
  function Render(cs: seq<Component>): string {
    if cs != [] && cs[0] == RootDir then "/" + Join(Segments(cs[1..]), '/') else Join(Segments(cs), '/')
  }

  // ---- normalise_path ---------------------------------------------------------------------------

  predicate AllParents(buf: seq<Component>) {
    forall i :: 0 <= i < |buf| ==> buf[i] == ParentDir
  }

  /** PathBuf::pop leaves a lone root alone. */
  function Pop(buf: seq<Component>): seq<Component> {
    if buf == [] || buf == [RootDir] then buf else buf[..|buf| - 1]
  }

  /** PathBuf::push of a component; an absolute one replaces the path. */
  function Push(buf: seq<Component>, c: Component): seq<Component> {
    if c == RootDir then [RootDir] else buf + [c]
  }

  function Resolve(buf: seq<Component>, c: Component): seq<Component> {
    match c
    case ParentDir => if AllParents(buf) then Push(buf, ParentDir) else Pop(buf)
    case CurDir => buf
    case _ => Push(buf, c)
  }

  function ResolveAll(buf: seq<Component>, cs: seq<Component>): seq<Component>
    decreases |cs|
  {
    if cs == [] then buf else ResolveAll(Resolve(buf, cs[0]), cs[1..])
  }

  function Normalise(cs: seq<Component>): seq<Component> {
    ResolveAll([], cs)
  }

  function NormalString(path: string): string {
    Render(Normalise(Components(path)))
  }

  method NormalisePath(path: string) returns (normal: string)
    ensures normal == NormalString(path)
  {
    var buf: seq<Component> := [];
    var segments := Components(path);
    while segments != []
      invariant ResolveAll(buf, segments) == Normalise(Components(path))
      decreases |segments|
    {
      match segments[0] {
        case ParentDir =>
          if AllParents(buf) {
            buf := Push(buf, ParentDir);
          } else {
            buf := Pop(buf);
          }
        case CurDir =>
        case segment => buf := Push(buf, segment);
      }
      segments := segments[1..];
    }
    normal := Render(buf);
  }

  // ---- Normal form ------------------------------------------------------------------------------

  ghost predicate AllNormal(cs: seq<Component>) {
    forall i :: 0 <= i < |cs| ==> cs[i].Normal?
  }

  /** Leading parents or a root, then names only. */
  ghost predicate NormalForm(cs: seq<Component>) {
    || (cs != [] && cs[0] == RootDir && AllNormal(cs[1..]))
    || (exists k :: 0 <= k <= |cs| && AllParents(cs[..k]) && AllNormal(cs[k..]))
  }

  lemma ResolveKeepsNormalForm(buf: seq<Component>, c: Component)
    requires NormalForm(buf)
    ensures NormalForm(Resolve(buf, c))
  {
    if c == RootDir {
      assert AllNormal([RootDir][1..]);
    } else if buf != [] && buf[0] == RootDir && AllNormal(buf[1..]) {
      ResolveRooted(buf, c);
    } else {
      hide Resolve;
      var k :| 0 <= k <= |buf| && AllParents(buf[..k]) && AllNormal(buf[k..]);
      ResolveRelative(buf, k, c);
    }
  }

  lemma ResolveRooted(buf: seq<Component>, c: Component)
    requires buf != [] && buf[0] == RootDir && AllNormal(buf[1..]) && c != RootDir
    ensures var r := Resolve(buf, c); r != [] && r[0] == RootDir && AllNormal(r[1..])
  {
    assert !AllParents(buf);
    assert forall i :: 1 <= i < |buf| ==> buf[i] == buf[1..][i - 1];
  }

  lemma ResolveRelative(buf: seq<Component>, k: nat, c: Component)
    requires k <= |buf| && AllParents(buf[..k]) && AllNormal(buf[k..]) && c != RootDir
    ensures NormalForm(Resolve(buf, c))
  {
    var r := Resolve(buf, c);
    assert forall i :: 0 <= i < k ==> buf[i] == buf[..k][i];
    assert forall i :: k <= i < |buf| ==> buf[i] == buf[k..][i - k];
    if c == ParentDir && AllParents(buf) {
      assert r[..|r|] == r && r[|r|..] == [];
    } else {
      assert c == ParentDir ==> k < |buf|;
      assert r[..k] == buf[..k];
      assert AllNormal(r[k..]);
    }
  }

  lemma {:induction false} ResolveAllNormalForm(buf: seq<Component>, cs: seq<Component>)
    requires NormalForm(buf)
    ensures NormalForm(ResolveAll(buf, cs))
    decreases |cs|
  {
    if cs != [] {
      ResolveKeepsNormalForm(buf, cs[0]);
      ResolveAllNormalForm(Resolve(buf, cs[0]), cs[1..]);
    }
  }

  lemma NormaliseIsNormal(cs: seq<Component>)
    ensures NormalForm(Normalise(cs))
  {
    var empty: seq<Component> := [];
    assert AllParents(empty[..0]) && AllNormal(empty[0..]);
    ResolveAllNormalForm([], cs);
  }

  lemma {:induction false} ResolveAllConcat(buf: seq<Component>, a: seq<Component>, b: seq<Component>)
    ensures ResolveAll(buf, a + b) == ResolveAll(ResolveAll(buf, a), b)
    decreases |a|
  {
    if a == [] {
      assert a + b == b;
    } else {
      assert (a + b)[0] == a[0] && (a + b)[1..] == a[1..] + b;
      ResolveAllConcat(Resolve(buf, a[0]), a[1..], b);
    }
  }

  /** A path in normal form is its own normal form. */
  lemma {:induction false} NormalFormIsFixed(cs: seq<Component>)
    requires NormalForm(cs)
    ensures Normalise(cs) == cs
    decreases |cs|
  {
    if cs != [] {
      var init, last := cs[..|cs| - 1], cs[|cs| - 1];
      assert cs == init + [last];
      PrefixIsNormal(cs);
      NormalFormIsFixed(init);
      ResolveAllConcat([], init, [last]);
      assert ResolveAll(init, [last]) == Resolve(init, last);
      LastResolves(cs);
    }
  }

  lemma PrefixIsNormal(cs: seq<Component>)
    requires NormalForm(cs) && cs != []
    ensures NormalForm(cs[..|cs| - 1])
  {
    var init := cs[..|cs| - 1];
    if cs[0] == RootDir && AllNormal(cs[1..]) {
      if init != [] {
        assert forall i :: 0 <= i < |init[1..]| ==> init[1..][i] == cs[1..][i];
      } else {
        assert AllParents(init[..0]) && AllNormal(init[0..]);
      }
    } else {
      var k :| 0 <= k <= |cs| && AllParents(cs[..k]) && AllNormal(cs[k..]);
      var j := if k == |cs| then k - 1 else k;
      assert forall i :: 0 <= i < j ==> init[..j][i] == cs[..k][i];
      assert forall i :: 0 <= i < |init[j..]| ==> init[j..][i] == cs[k..][i];
      assert AllParents(init[..j]) && AllNormal(init[j..]);
    }
  }

  lemma LastResolves(cs: seq<Component>)
    requires NormalForm(cs) && cs != []
    ensures Resolve(cs[..|cs| - 1], cs[|cs| - 1]) == cs
  {
    var init, last := cs[..|cs| - 1], cs[|cs| - 1];
    assert cs == init + [last];
    if cs[0] == RootDir && AllNormal(cs[1..]) {
      if |cs| > 1 { assert cs[1..][|cs| - 2] == last; }
    } else {
      var k :| 0 <= k <= |cs| && AllParents(cs[..k]) && AllNormal(cs[k..]);
      if k == |cs| {
        assert cs[..k] == cs;
      } else {
        assert cs[k..][|cs| - 1 - k] == last;
      }
    }
  }

  lemma Idempotent(cs: seq<Component>)
    ensures Normalise(Normalise(cs)) == Normalise(cs)
  {
    NormaliseIsNormal(cs);
    NormalFormIsFixed(Normalise(cs));
  }

  /** Normalising a prefix first makes no difference. */
  lemma NormalisePrefix(p: seq<Component>, q: seq<Component>)
    ensures Normalise(p + q) == Normalise(Normalise(p) + q)
  {
    ResolveAllConcat([], p, q);
    ResolveAllConcat([], Normalise(p), q);
    Idempotent(p);
  }

  // ---- Meaning ----------------------------------------------------------------------------------

  /** A symlink-free tree: which places exist below the root, each named by the way down to it. */
  type Tree = seq<string> -> bool

  function Parent(at: seq<string>): seq<string> {
    if at == [] then [] else at[..|at| - 1]
  }

  function Enter(tree: Tree, at: seq<string>, c: Component): Option<seq<string>> {
    match c
    case RootDir => Some([])
    case CurDir => Some(at)
    case ParentDir => Some(Parent(at))
    case Normal(name) => if tree(at + [name]) then Some(at + [name]) else None
  }

  /** Walking a path from `at`; it fails at a name that does not exist. */
  function Walk(tree: Tree, at: seq<string>, cs: seq<Component>): Option<seq<string>>
    decreases |cs|
  {
    if cs == [] then Some(at)
    else
      match Walk(tree, at, cs[..|cs| - 1])
      case None => None
      case Some(there) => Enter(tree, there, cs[|cs| - 1])
  }

  lemma WalkPush(tree: Tree, at: seq<string>, cs: seq<Component>, c: Component)
    ensures Walk(tree, at, cs + [c]) ==
            match Walk(tree, at, cs)
            case None => None
            case Some(there) => Enter(tree, there, c)
  {
    assert (cs + [c])[..|cs|] == cs;
  }

  lemma ResolveKeepsMeaning(tree: Tree, at: seq<string>, buf: seq<Component>, c: Component)
    requires NormalForm(buf) && Walk(tree, at, buf + [c]).Some?
    ensures Walk(tree, at, Resolve(buf, c)) == Walk(tree, at, buf + [c])
  {
    WalkPush(tree, at, buf, c);
    if c == RootDir {
      assert [RootDir][..0] == [];
    } else if c == ParentDir && !AllParents(buf) {
      var init, last := buf[..|buf| - 1], buf[|buf| - 1];
      assert buf == init + [last];
      WalkPush(tree, at, init, last);
      LastIsNormalOrRoot(buf);
    }
  }

  lemma LastIsNormalOrRoot(buf: seq<Component>)
    requires NormalForm(buf) && !AllParents(buf)
    ensures buf != [] && (buf == [RootDir] || buf[|buf| - 1].Normal?)
  {
    if buf[0] == RootDir && AllNormal(buf[1..]) {
      if |buf| > 1 { assert buf[1..][|buf| - 2] == buf[|buf| - 1]; }
    } else {
      var k :| 0 <= k <= |buf| && AllParents(buf[..k]) && AllNormal(buf[k..]);
      assert forall j :: 0 <= j < k ==> buf[..k][j] == buf[j];
      assert forall j :: k <= j < |buf| ==> buf[k..][j - k] == buf[j];
    }
  }

  /** Where walking a path leads, walking its normal form leads too, in every tree and from every base. */
  lemma {:induction false} NormaliseKeepsMeaning(tree: Tree, at: seq<string>, cs: seq<Component>)
    requires Walk(tree, at, cs).Some?
    ensures Walk(tree, at, Normalise(cs)) == Walk(tree, at, cs)
    decreases |cs|
  {
    if cs != [] {
      var init, last := cs[..|cs| - 1], cs[|cs| - 1];
      assert cs == init + [last];
      WalkPush(tree, at, init, last);
      NormaliseKeepsMeaning(tree, at, init);
      NormaliseIsNormal(init);
      ResolveAllConcat([], init, [last]);
      assert ResolveAll(Normalise(init), [last]) == Resolve(Normalise(init), last);
      WalkPush(tree, at, Normalise(init), last);
      ResolveKeepsMeaning(tree, at, Normalise(init), last);
    }
  }

  // ---- Normal forms are canonical ---------------------------------------------------------------

  /** The tree in which every place exists. */
  function Everywhere(place: seq<string>): bool { true }

  lemma {:induction false} WalkNames(at: seq<string>, cs: seq<Component>)
    requires AllNormal(cs)
    ensures Walk(Everywhere, at, cs) == Some(at + Segments(cs))
    decreases |cs|
  {
    if cs == [] {
      assert at + [] == at;
    } else {
      var init := cs[..|cs| - 1];
      WalkNames(at, init);
      assert at + Segments(init) + [cs[|cs| - 1].name] == at + Segments(cs);
    }
  }

  lemma {:induction false} WalkParents(at: seq<string>, cs: seq<Component>)
    requires AllParents(cs) && |cs| <= |at|
    ensures Walk(Everywhere, at, cs) == Some(at[..|at| - |cs|])
    decreases |cs|
  {
    if cs == [] {
      assert at[..|at|] == at;
    } else {
      var init := cs[..|cs| - 1];
      WalkParents(at, init);
      assert at[..|at| - |init|][..|at| - |init| - 1] == at[..|at| - |cs|];
    }
  }

  lemma {:induction false} WalkConcat(tree: Tree, at: seq<string>, a: seq<Component>, b: seq<Component>)
    requires Walk(tree, at, a).Some?
    ensures Walk(tree, at, a + b) == Walk(tree, Walk(tree, at, a).value, b)
    decreases |b|
  {
    if b == [] {
      assert a + b == a;
    } else {
      var init := b[..|b| - 1];
      assert (a + b)[..|a + b| - 1] == a + init;
      WalkConcat(tree, at, a, init);
    }
  }

  lemma WalkRooted(at: seq<string>, cs: seq<Component>)
    requires cs != [] && cs[0] == RootDir && AllNormal(cs[1..])
    ensures Walk(Everywhere, at, cs) == Some(Segments(cs[1..]))
  {
    assert cs == [RootDir] + cs[1..];
    assert [RootDir][..0] == [];
    assert Walk(Everywhere, at, [RootDir]) == Some([]);
    WalkConcat(Everywhere, at, [RootDir], cs[1..]);
    WalkNames([], cs[1..]);
    assert [] + Segments(cs[1..]) == Segments(cs[1..]);
  }

  lemma WalkRelative(at: seq<string>, cs: seq<Component>, k: nat)
    requires k <= |cs| && AllParents(cs[..k]) && AllNormal(cs[k..]) && k <= |at|
    ensures Walk(Everywhere, at, cs) == Some(at[..|at| - k] + Segments(cs[k..]))
  {
    assert cs == cs[..k] + cs[k..];
    WalkParents(at, cs[..k]);
    WalkConcat(Everywhere, at, cs[..k], cs[k..]);
    WalkNames(at[..|at| - k], cs[k..]);
  }

  ghost predicate SameMeaning(p: seq<Component>, q: seq<Component>) {
    forall at :: Walk(Everywhere, at, p) == Walk(Everywhere, at, q)
  }

  lemma NamesDetermine(p: seq<Component>, q: seq<Component>)
    requires AllNormal(p) && AllNormal(q) && Segments(p) == Segments(q)
    ensures p == q
  {
    forall i | 0 <= i < |p| ensures p[i] == q[i] {
      assert Segments(p)[i] == Segments(q)[i];
    }
  }

  /** A base deep enough, all of whose names are `name`. */
  function Base(depth: nat, name: string): (at: seq<string>)
    ensures |at| == depth && forall i :: 0 <= i < depth ==> at[i] == name
  {
    seq(depth, _ => name)
  }

  /** Fewer leading parents end elsewhere, from a base with suitable names. */
  lemma ParentsTell(p: seq<Component>, k: nat, q: seq<Component>, l: nat)
    requires k <= |p| && AllParents(p[..k]) && AllNormal(p[k..])
    requires l <= |q| && AllParents(q[..l]) && AllNormal(q[l..])
    requires k < l
    ensures !SameMeaning(p, q)
  {
    var names := Segments(q[l..]);
    var other := if names != [] then names[0] + "x" else "x";
    var at := Base(l, other);
    WalkRelative(at, p, k);
    WalkRelative(at, q, l);
    var here, there := at[..|at| - k] + Segments(p[k..]), at[..|at| - l] + names;
    assert here[0] == other && there == names;
    assert names != [] ==> |other| == |names[0]| + 1;
    assert Walk(Everywhere, at, p) != Walk(Everywhere, at, q);
  }

  lemma RelativeDetermined(p: seq<Component>, q: seq<Component>, k: nat)
    requires k <= |p| && AllParents(p[..k]) && AllNormal(p[k..])
    requires k <= |q| && AllParents(q[..k]) && AllNormal(q[k..])
    requires SameMeaning(p, q)
    ensures p == q
  {
    var at := Base(k, "x");
    WalkRelative(at, p, k);
    WalkRelative(at, q, k);
    assert Walk(Everywhere, at, p) == Walk(Everywhere, at, q);
    assert at[..0] + Segments(p[k..]) == Segments(p[k..]) && at[..0] + Segments(q[k..]) == Segments(q[k..]);
    NamesDetermine(p[k..], q[k..]);
    assert p == p[..k] + p[k..] && q == q[..k] + q[k..];
    assert p[..k] == q[..k];
  }

  lemma RootedIsNotRelative(p: seq<Component>, q: seq<Component>, l: nat)
    requires p != [] && p[0] == RootDir && AllNormal(p[1..])
    requires l <= |q| && AllParents(q[..l]) && AllNormal(q[l..])
    ensures !SameMeaning(p, q)
  {
    var at := Base(l + |p|, "x");
    WalkRooted(at, p);
    WalkRelative(at, q, l);
    assert |at[..|at| - l] + Segments(q[l..])| >= |p| > |Segments(p[1..])|;
    assert Walk(Everywhere, at, p) != Walk(Everywhere, at, q);
  }

  /** Normal forms that lead to the same places are equal. */
  lemma NormalFormsAreCanonical(p: seq<Component>, q: seq<Component>)
    requires NormalForm(p) && NormalForm(q) && SameMeaning(p, q)
    ensures p == q
  {
    var rooted := p != [] && p[0] == RootDir && AllNormal(p[1..]);
    var rooted' := q != [] && q[0] == RootDir && AllNormal(q[1..]);
    if rooted && rooted' {
      WalkRooted([], p);
      WalkRooted([], q);
      assert Walk(Everywhere, [], p) == Walk(Everywhere, [], q);
      NamesDetermine(p[1..], q[1..]);
      assert p == [RootDir] + p[1..] && q == [RootDir] + q[1..];
    } else if rooted {
      var l :| 0 <= l <= |q| && AllParents(q[..l]) && AllNormal(q[l..]);
      RootedIsNotRelative(p, q, l);
    } else if rooted' {
      var k :| 0 <= k <= |p| && AllParents(p[..k]) && AllNormal(p[k..]);
      RootedIsNotRelative(q, p, k);
    } else {
      var k :| 0 <= k <= |p| && AllParents(p[..k]) && AllNormal(p[k..]);
      var l :| 0 <= l <= |q| && AllParents(q[..l]) && AllNormal(q[l..]);
      if k < l {
        ParentsTell(p, k, q, l);
      } else if l < k {
        ParentsTell(q, l, p, k);
      } else {
        RelativeDetermined(p, q, k);
      }
    }
  }

  lemma {:induction false} WalksEverywhere(at: seq<string>, cs: seq<Component>)
    ensures Walk(Everywhere, at, cs).Some?
    decreases |cs|
  {
    if cs != [] {
      WalksEverywhere(at, cs[..|cs| - 1]);
    }
  }

  /** Two paths have the same normal form if and only if they lead to the same place from everywhere. */
  lemma SameFormIffSameMeaning(p: seq<Component>, q: seq<Component>)
    ensures Normalise(p) == Normalise(q) <==> SameMeaning(p, q)
  {
    forall at
      ensures Walk(Everywhere, at, Normalise(p)) == Walk(Everywhere, at, p)
      ensures Walk(Everywhere, at, Normalise(q)) == Walk(Everywhere, at, q)
    {
      WalksEverywhere(at, p);
      WalksEverywhere(at, q);
      NormaliseKeepsMeaning(Everywhere, at, p);
      NormaliseKeepsMeaning(Everywhere, at, q);
    }
    if SameMeaning(p, q) {
      NormaliseIsNormal(p);
      NormaliseIsNormal(q);
      assert SameMeaning(Normalise(p), Normalise(q));
      NormalFormsAreCanonical(Normalise(p), Normalise(q));
    }
  }

  // ---- Back to strings --------------------------------------------------------------------------

  /** A name as it comes out of a parsed path. */
  predicate ProperName(name: string) {
    name != "" && name != "." && name != ".." && '/' !in name
  }

  ghost predicate Proper(cs: seq<Component>) {
    forall i :: 0 <= i < |cs| && cs[i].Normal? ==> ProperName(cs[i].name)
  }

  lemma {:induction false} SegmentComponentsProper(segments: seq<string>)
    requires forall i :: 0 <= i < |segments| ==> '/' !in segments[i]
    ensures Proper(SegmentComponents(segments))
  {
    if segments != [] {
      SegmentComponentsProper(segments[1..]);
    }
  }

  lemma ComponentsProper(path: string)
    ensures Proper(Components(path))
  {
    SplitPartsAreFree(path, '/');
    SegmentComponentsProper(Split(path, '/'));
  }

  lemma {:induction false} ResolveAllProper(buf: seq<Component>, cs: seq<Component>)
    requires Proper(buf) && Proper(cs)
    ensures Proper(ResolveAll(buf, cs))
    decreases |cs|
  {
    if cs != [] {
      ResolveAllProper(Resolve(buf, cs[0]), cs[1..]);
    }
  }

  /** Names and parents read back from their segments. */
  lemma {:induction false} SegmentsReadBack(cs: seq<Component>)
    requires Proper(cs) && forall i :: 0 <= i < |cs| ==> cs[i] == ParentDir || cs[i].Normal?
    ensures SegmentComponents(Segments(cs)) == cs
  {
    if cs != [] {
      assert Segments(cs)[1..] == Segments(cs[1..]);
      SegmentsReadBack(cs[1..]);
      assert [cs[0]] + cs[1..] == cs;
    }
  }

  /** Rendering a normal form and parsing it again gives the same components. */
  lemma RenderReadsBack(cs: seq<Component>)
    requires NormalForm(cs) && Proper(cs)
    ensures Components(Render(cs)) == cs
  {
    if cs != [] && cs[0] == RootDir && AllNormal(cs[1..]) {
      RootedReadsBack(cs[1..]);
      assert [RootDir] + cs[1..] == cs;
    } else {
      var k :| 0 <= k <= |cs| && AllParents(cs[..k]) && AllNormal(cs[k..]);
      forall i | 0 <= i < |cs| ensures cs[i] == ParentDir || cs[i].Normal? {
        if i < k { assert cs[i] == cs[..k][i]; } else { assert cs[i] == cs[k..][i - k]; }
      }
      RelativeReadsBack(cs);
    }
  }

  lemma RootedReadsBack(names: seq<Component>)
    requires AllNormal(names) && Proper(names)
    ensures Components("/" + Join(Segments(names), '/')) == [RootDir] + names
  {
    var body := Join(Segments(names), '/');
    var path := "/" + body;
    assert path == [] + ['/'] + body;
    SplitAtFirst([], body, '/');
    assert SegmentComponents([[]] + Split(body, '/')) == SegmentComponents(Split(body, '/')) by {
      assert ([[]] + Split(body, '/'))[1..] == Split(body, '/');
    }
    if names == [] {
      assert Split(body, '/') == [[]];
      assert SegmentComponents([[]]) == [] + SegmentComponents([]);
    } else {
      SplitJoin(Segments(names), '/');
      SegmentsReadBack(names);
    }
  }

  lemma RelativeReadsBack(cs: seq<Component>)
    requires Proper(cs) && forall i :: 0 <= i < |cs| ==> cs[i] == ParentDir || cs[i].Normal?
    ensures Components(Join(Segments(cs), '/')) == cs
  {
    var path := Join(Segments(cs), '/');
    if cs == [] {
      assert Split(path, '/') == [[]];
      assert SegmentComponents([[]]) == [] + SegmentComponents([]);
    } else {
      SplitJoin(Segments(cs), '/');
      SegmentsReadBack(cs);
      assert Segments(cs)[0] != "" && '/' !in Segments(cs)[0] && Segments(cs)[0] != ".";
      assert path[0] == Segments(cs)[0][0];
      assert !Rooted(path);
    }
  }

  /** On strings: the result reads back as the normal form, so normalising again changes nothing. */
  lemma NormalStringReadsBack(path: string)
    ensures Components(NormalString(path)) == Normalise(Components(path))
    ensures NormalString(NormalString(path)) == NormalString(path)
  {
    var cs := Components(path);
    NormaliseIsNormal(cs);
    ComponentsProper(path);
    ResolveAllProper([], cs);
    RenderReadsBack(Normalise(cs));
    Idempotent(cs);
  }

  /** On strings: the normal form of a path leads where the path leads. */
  lemma NormalStringKeepsMeaning(tree: Tree, at: seq<string>, path: string)
    requires Walk(tree, at, Components(path)).Some?
    ensures Walk(tree, at, Components(NormalString(path))) == Walk(tree, at, Components(path))
  {
    NormalStringReadsBack(path);
    NormaliseKeepsMeaning(tree, at, Components(path));
  }

  // ---- What a path reads as ----------------------------------------------------------------------

  lemma {:induction false} SegmentsConcat(a: seq<string>, b: seq<string>)
    ensures SegmentComponents(a + b) == SegmentComponents(a) + SegmentComponents(b)
  {
    if a == [] {
      assert a + b == b;
    } else {
      assert (a + b)[1..] == a[1..] + b;
      SegmentsConcat(a[1..], b);
    }
  }

  /** What follows a path reads on where the path ends. */
  lemma ComponentsJoin(a: string, b: string)
    requires a != ""
    ensures Components(a + "/" + b) == Components(a) + SegmentComponents(Split(b, '/'))
  {
    SplitConcat(a, b, '/');
    SegmentsConcat(Split(a, '/'), Split(b, '/'));
    assert Rooted(a + "/" + b) == Rooted(a);
  }

  lemma SegmentReads(name: string, b: string)
    requires '/' !in name
    ensures SegmentComponents(Split(name + "/" + b, '/')) ==
            (match name case "" => [] case "." => [] case ".." => [ParentDir] case _ => [Normal(name)])
            + SegmentComponents(Split(b, '/'))
  {
    SplitAtFirst(name, b, '/');
    assert ([name] + Split(b, '/'))[1..] == Split(b, '/');
  }

  /** Inside a path a `.` and a doubled slash are nothing, `..` goes to the parent, and all else is a name. */
  lemma InnerSegments(a: string, name: string, b: string)
    requires a != "" && '/' !in name
    ensures Components(a + "//" + b) == Components(a + "/./" + b) == Components(a + "/" + b)
    ensures Components(a + "/../" + b) == Components(a) + [ParentDir] + SegmentComponents(Split(b, '/'))
    ensures name !in {"", ".", ".."} ==>
              Components(a + "/" + name + "/" + b) == Components(a) + [Normal(name)] + SegmentComponents(Split(b, '/'))
  {
    hide Components, SegmentComponents, Split;
    ComponentsJoin(a, b);
    SegmentReads("", b);
    SegmentReads(".", b);
    SegmentReads("..", b);
    SegmentReads(name, b);
    ComponentsJoin(a, "" + "/" + b);
    ComponentsJoin(a, "." + "/" + b);
    ComponentsJoin(a, ".." + "/" + b);
    ComponentsJoin(a, name + "/" + b);
    assert a + "/" + ("" + "/" + b) == a + "//" + b;
    assert a + "/" + ("." + "/" + b) == a + "/./" + b;
    assert a + "/" + (".." + "/" + b) == a + "/../" + b;
    assert a + "/" + (name + "/" + b) == a + "/" + name + "/" + b;
  }
}
