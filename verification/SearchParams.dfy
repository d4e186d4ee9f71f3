/** A URL object and the URLSearchParams object that shows its query, each updating the other. */
module SearchParams {
  import opened Chunks
  import opened Wrappers
  import opened FormEncoding
  import opened PairLists
  import opened PairSort
  import opened QueryText

  /** A parsed URL: its query, whether its scheme is special, and all the rest of it. */
  datatype Url = Url(rest: string, special: bool, query: Option<seq<byte>>)

  function QueryPairs(url: Url): seq<Pair> {
    Parse(if url.query.Some? then url.query.value else [])
  }

  /** The query that shows a list of pairs: none at all for no pairs. */
  function QueryOf(pairs: seq<Pair>): Option<seq<byte>> {
    if pairs == [] then None else Some(Serialise(pairs))
  }

  lemma QueryShowsPairs(url: Url, pairs: seq<Pair>)
    ensures QueryPairs(url.(query := QueryOf(pairs))) == pairs
  {
    ParseSerialised(pairs);
  }

  class URLSearchParams {
    var pairs: seq<Pair>
    var url: URL?

    /** If there is a URL, the two objects belong to each other and its query reads as these pairs. */
    ghost predicate Coherent()
      reads this, url
    {
      url != null ==> url.searchParams == this && QueryPairs(url.url) == pairs
    }

    constructor (init: seq<Pair>)
      ensures url == null && pairs == init
    {
      pairs := init;
      url := null;
    }

    method Append(name: string, value: string)
      requires Coherent()
      modifies `pairs, url
      ensures pairs == old(pairs) + [(name, value)]
      ensures Coherent() && Updated()
    {
      pairs := pairs + [(name, value)];
      Update();
    }

    method Delete(name: string, value: Option<string>)
      requires Coherent()
      modifies `pairs, url
      ensures pairs == Without(old(pairs), name, value)
      ensures Coherent() && Updated()
    {
      var kept: seq<Pair> := [];
      var i := 0;
      while i < |pairs|
        invariant 0 <= i <= |pairs|
        invariant kept == Without(pairs[..i], name, value)
        modifies {}
      {
        WithoutPush(pairs, i, name, value);
        if !Doomed(pairs[i], name, value) {
          kept := kept + [pairs[i]];
        }
        i := i + 1;
      }
      assert pairs[..i] == pairs;
      pairs := kept;
      Update();
    }

    method Get(key: string) returns (value: Option<string>)
      ensures value == if GetAll(pairs, key) == [] then None else Some(GetAll(pairs, key)[0])
    {
      var i := 0;
      assert pairs[0..] == pairs;
      while i < |pairs|
        invariant 0 <= i <= |pairs|
        invariant GetAll(pairs[i..], key) == GetAll(pairs, key)
      {
        assert pairs[i..][1..] == pairs[i + 1..];
        if pairs[i].0 == key {
          return Some(pairs[i].1);
        }
        i := i + 1;
      }
      value := None;
    }

    method Has(key: string, value: Option<string>) returns (found: bool)
      ensures found <==> exists pair :: pair in pairs && Doomed(pair, key, value)
      ensures value == None ==> (found <==> GetAll(pairs, key) != [])
    {
      found := exists pair :: pair in pairs && Doomed(pair, key, value);
      if value == None {
        if found {
          var pair :| pair in pairs && Doomed(pair, key, value);
          HasValue(pairs, pair);
        } else if GetAll(pairs, key) != [] {
          HasPair(pairs, key);
          var k :| 0 <= k < |pairs| && pairs[k].0 == key;
          assert Doomed(pairs[k], key, value);
        }
      }
    }

    /** One pass keeps the first pair with the key, noting its place, and drops the later ones ... */
    method RetainFirst(key: string) returns (kept: seq<Pair>, index: Option<nat>)
      ensures index == None ==> kept == pairs && FirstIndex(pairs, key) == |pairs|
      ensures index.Some? ==>
        && index.value == FirstIndex(pairs, key) < |pairs|
        && kept == pairs[..index.value + 1] + Without(pairs[index.value + 1..], key)
    {
      hide FirstIndex, Without;
      var i := 0;
      index := None;
      kept := [];
      var j := 0;
      ghost var k := FirstIndex(pairs, key);
      ghost var later := if k < |pairs| then pairs[k + 1..] else [];
      while j < |pairs|
        invariant 0 <= j <= |pairs|
        invariant index == None ==> i == j <= k && kept == pairs[..j]
        invariant index.Some? ==>
            index.value == i == k < j && kept == pairs[..k + 1] + Without(later[..j - k - 1], key)
      {
        if index == None {
          if pairs[j].0 == key {
            index := Some(i);
            NothingToDrop(key);
            assert later[..0] == [];
          } else {
            i := i + 1;
          }
          kept := kept + [pairs[j]];
        } else {
          WithoutPush(later, j - k - 1, key, None);
          if pairs[j].0 != key {
            kept := kept + [pairs[j]];
          }
        }
        j := j + 1;
      }
      assert pairs[..j] == pairs && later[..|later|] == later;
    }

    /** ... then that pair gets the value, or a new pair goes at the end. */
    method Set(key: string, value: string)
      requires Coherent()
      modifies `pairs, url
      ensures pairs == SetPair(old(pairs), key, value)
      ensures Coherent() && Updated()
    {
      hide FirstIndex, Without, SetPair;
      var kept, index := RetainFirst(key);
      SetFromRetained(pairs, key, value, kept, index);
      match index {
        case Some(at) =>
          pairs := kept[at := (kept[at].0, value)];
        case None =>
          pairs := kept + [(key, value)];
      }
      Update();
    }

    method Sort()
      requires Coherent()
      modifies `pairs, url
      ensures pairs == Sorted(old(pairs))
      ensures Coherent() && Updated()
    {
      pairs := Sorted(pairs);
      Update();
    }

    method ToString() returns (s: seq<byte>)
      ensures Parse(s) == pairs
      ensures s == Serialise(pairs)
    {
      ParseSerialised(pairs);
      s := Serialise(pairs);
    }

    /** What an operation does to the URL: its query now shows the pairs, and nothing else changes. */
    twostate predicate Updated()
      reads this, url
    {
      && url == old(url)
      && (url != null ==>
            url.url == old(url.url).(query := QueryOf(pairs)) && url.searchParams == old(url.searchParams))
    }

    method Update()
      requires url != null ==> url.searchParams == this
      modifies if url == null then {} else {url}
      ensures Coherent()
      ensures url != null ==>
        url.url == old(url.url).(query := QueryOf(pairs)) && url.searchParams == old(url.searchParams)
    {
      if url != null {
        url.url := url.url.(query := if pairs == [] then None else Some(Serialise(pairs)));
        QueryShowsPairs(url.url, pairs);
      }
    }
  }

  lemma SetFromRetained(pairs: seq<Pair>, key: string, value: string, kept: seq<Pair>, index: Option<nat>)
    requires index == None ==> kept == pairs && FirstIndex(pairs, key) == |pairs|
    requires index.Some? ==>
      && index.value == FirstIndex(pairs, key) < |pairs|
      && kept == pairs[..index.value + 1] + Without(pairs[index.value + 1..], key)
    ensures SetPair(pairs, key, value) ==
            match index
            case None => kept + [(key, value)]
            case Some(at) => kept[at := (kept[at].0, value)]
  {
    hide FirstIndex, Without;
  }

  lemma NothingToDrop(name: string)
    ensures Without([], name) == []
  {
  }

  lemma WithoutPush(pairs: seq<Pair>, i: nat, name: string, value: Option<string>)
    requires i < |pairs|
    ensures Without(pairs[..i + 1], name, value) ==
            Without(pairs[..i], name, value) + (if Doomed(pairs[i], name, value) then [] else [pairs[i]])
  {
    assert pairs[..i + 1] == pairs[..i] + [pairs[i]];
    WithoutConcat(pairs[..i], [pairs[i]], name, value);
  }

  class URL {
    var url: Url
    var searchParams: URLSearchParams

    ghost predicate Linked()
      reads this, searchParams
    {
      searchParams.url == this && searchParams.pairs == QueryPairs(url)
    }

    constructor (parsed: Url)
      ensures url == parsed && Linked() && fresh(searchParams)
    {
      url := parsed;
      searchParams := new URLSearchParams(QueryPairs(parsed));
      new;
      searchParams.url := this;
    }

    /** `parsed` is what the URL parser makes of the input; a failure changes nothing. */
    method SetHref(parsed: Option<Url>) returns (ok: bool)
      requires Linked()
      modifies `url, searchParams`pairs
      ensures Linked() && ok == parsed.Some?
      ensures url == if ok then parsed.value else old(url)
      ensures !ok ==> searchParams.pairs == old(searchParams.pairs)
    {
      match parsed {
        case Some(u) =>
          searchParams.pairs := QueryPairs(u);
          url := u;
          ok := true;
        case None =>
          ok := false;
      }
    }

    method SetSearch(search: string)
      requires Linked()
      modifies `url, searchParams`pairs
      ensures Linked()
      ensures url == old(url).(query := if search == "" then None else Some(StoredQuery(search, url.special)))
    {
      if search == "" {
        url := url.(query := None);
      } else {
        url := url.(query := Some(StoredQuery(search, url.special)));
      }
      searchParams.pairs := QueryPairs(url);
    }

    /** The query, without its question mark, reads as the list that the parameters show. */
    method GetSearch() returns (query: Option<seq<byte>>)
      requires Linked()
      ensures query == url.query
      ensures searchParams.pairs == Parse(if query.Some? then query.value else [])
    {
      query := url.query;
    }
  }

  lemma CoherentMeansLinked(params: URLSearchParams)
    requires params.url != null && params.Coherent()
    ensures params.url.Linked()
  {
  }

  // ---- Any interleaving of both objects' operations ------------------------------------------------

  datatype Command =
    | Append(name: string, value: string)
    | Delete(name: string, only: Option<string>)
    | Set(name: string, value: string)
    | Sort
    | SetHref(parsed: Option<Url>)
    | SetSearch(search: string)

  /** What a command does to the URL; the parameters' list is read from the query and written back. */
  function Do(u: Url, c: Command): Url {
    var pairs := QueryPairs(u);
    match c
    case Append(name, value) => u.(query := QueryOf(pairs + [(name, value)]))
    case Delete(name, only) => u.(query := QueryOf(Without(pairs, name, only)))
    case Set(name, value) => u.(query := QueryOf(SetPair(pairs, name, value)))
    case Sort => u.(query := QueryOf(Sorted(pairs)))
    case SetHref(parsed) => if parsed.Some? then parsed.value else u
    case SetSearch(search) => u.(query := if search == "" then None else Some(StoredQuery(search, u.special)))
  }

  function DoAll(u: Url, commands: seq<Command>): Url
    decreases |commands|
  {
    if commands == [] then u else DoAll(Do(u, commands[0]), commands[1..])
  }

  method Perform(url: URL, c: Command)
    requires url.Linked()
    modifies url, url.searchParams
    ensures url.Linked() && url.searchParams == old(url.searchParams) && url.url == Do(old(url.url), c)
  {
    var params := url.searchParams;
    match c {
      case Append(name, value) => params.Append(name, value);
      case Delete(name, only) => params.Delete(name, only);
      case Set(name, value) => params.Set(name, value);
      case Sort => params.Sort();
      case SetHref(parsed) => var _ := url.SetHref(parsed);
      case SetSearch(search) => url.SetSearch(search);
    }
    CoherentMeansLinked(params);
  }

  /**
   However the operations on a URL and on its parameters are interleaved, the parameters show the
   query, and the URL ends as if there were no second object: its query alone carries the list.
   */
  method PerformAll(url: URL, commands: seq<Command>)
    requires url.Linked()
    modifies url, url.searchParams
    ensures url.Linked() && url.searchParams == old(url.searchParams)
    ensures url.url == DoAll(old(url.url), commands) && url.searchParams.pairs == QueryPairs(url.url)
  {
    var i := 0;
    ghost var first := url.url;
    assert commands[0..] == commands;
    while i < |commands|
      invariant 0 <= i <= |commands|
      invariant url.Linked() && url.searchParams == old(url.searchParams)
      invariant DoAll(url.url, commands[i..]) == DoAll(first, commands)
    {
      assert commands[i..][0] == commands[i] && commands[i..][1..] == commands[i + 1..];
      Perform(url, commands[i]);
      i := i + 1;
    }
  }
}
