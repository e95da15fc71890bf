/**
 * The browser's CacheStorage as the service worker uses it: named caches,
 * kept in creation order, each mapping a request URL to a stored response.
 */
module CacheStorage {
  import opened Optional

  type Url = string

  /** A response; the body is abstract. */
  datatype Response = Response(status: int, body: string)

  /** The entries of one cache. */
  type Entries = map<Url, Response>

  /** No name occurs twice in `s`. */
  predicate Distinct(s: seq<string>) {
    s == [] || (s[0] !in s[1..] && Distinct(s[1..]))
  }

  /** In a list without repetitions, an element occurs neither before nor after its position. */
  lemma {:induction false} DistinctAt(s: seq<string>, i: int)
    requires Distinct(s) && 0 <= i < |s|
    ensures s[i] !in s[..i] && s[i] !in s[i + 1..]
    decreases |s|
  {
    if i > 0 {
      DistinctAt(s[1..], i - 1);
      assert s[..i] == [s[0]] + s[1..][..i - 1];
      assert s[i + 1..] == s[1..][i..];
      assert s[i] in s[1..];
    }
  }

  /** Appending a new name keeps a list free of repetitions. */
  lemma {:induction false} DistinctAppend(s: seq<string>, x: string)
    requires Distinct(s) && x !in s
    ensures Distinct(s + [x])
    decreases |s|
  {
    if s != [] {
      assert (s + [x])[1..] == s[1..] + [x];
      DistinctAppend(s[1..], x);
    }
  }

  /** `s` without the element `x`. */
  function Without(s: seq<string>, x: string): (r: seq<string>)
    ensures x !in r
    ensures forall y :: y in r <==> y in s && y != x
  {
    if s == [] then [] else if s[0] == x then Without(s[1..], x) else [s[0]] + Without(s[1..], x)
  }

  /** Removing an element that occurs once, between two parts that lack it, joins the parts. */
  lemma {:induction false} WithoutSplit(a: seq<string>, x: string, b: seq<string>)
    requires x !in a && x !in b
    ensures Without(a + [x] + b, x) == a + b
    decreases |a|
  {
    if a == [] {
      assert a + [x] + b == [x] + b;
      WithoutAbsent(b, x);
    } else {
      assert (a + [x] + b)[1..] == a[1..] + [x] + b;
      WithoutSplit(a[1..], x, b);
    }
  }

  lemma {:induction false} WithoutAbsent(s: seq<string>, x: string)
    requires x !in s
    ensures Without(s, x) == s
    decreases |s|
  {
    if s != [] {
      WithoutAbsent(s[1..], x);
    }
  }

  /**
   * `caches.match(url)`: the response stored for `url` in the first cache,
   * in creation order, that holds one.
   */
  function Lookup(names: seq<string>, caches: map<string, Entries>, url: Url): Option<Response>
  {
    if names == [] then None
    else if names[0] in caches && url in caches[names[0]] then Some(caches[names[0]][url])
    else Lookup(names[1..], caches, url)
  }

  /**
   * A lookup finds something exactly when some cache holds the URL, and what
   * it finds is what that cache stores, taken from the earliest such cache.
   */
  lemma {:induction false} LookupFindsEarliest(names: seq<string>, caches: map<string, Entries>, url: Url)
    ensures Lookup(names, caches, url).None? <==>
              forall i :: 0 <= i < |names| && names[i] in caches ==> url !in caches[names[i]]
    ensures Lookup(names, caches, url).Some? ==>
              exists i :: && 0 <= i < |names| && names[i] in caches && url in caches[names[i]]
                          && Lookup(names, caches, url).value == caches[names[i]][url]
                          && forall j :: 0 <= j < i && names[j] in caches ==> url !in caches[names[j]]
    decreases |names|
  {
    if names != [] && !(names[0] in caches && url in caches[names[0]]) {
      LookupFindsEarliest(names[1..], caches, url);
      if Lookup(names, caches, url).Some? {
        var i :| && 0 <= i < |names[1..]| && names[1..][i] in caches && url in caches[names[1..][i]]
                 && Lookup(names[1..], caches, url).value == caches[names[1..][i]][url]
                 && forall j :: 0 <= j < i && names[1..][j] in caches ==> url !in caches[names[1..][j]];
        assert names[i + 1] == names[1..][i];
        forall j | 0 <= j < i + 1 && names[j] in caches ensures url !in caches[names[j]] {
          if j > 0 { assert names[j] == names[1..][j - 1]; }
        }
      } else {
        forall i | 0 <= i < |names| && names[i] in caches ensures url !in caches[names[i]] {
          if i > 0 { assert names[i] == names[1..][i - 1]; }
        }
      }
    }
  }

  class Storage {
    /** `caches.keys()`: the cache names in creation order */
    var names: seq<string>
    var caches: map<string, Entries>

    /** Every name is listed once, and the listed names are exactly the caches. */
    ghost predicate Valid()
      reads this
    {
      Distinct(names) && (forall n :: n in caches <==> n in names)
    }

    constructor (names: seq<string>, caches: map<string, Entries>)
      requires Distinct(names) && (forall n :: n in caches <==> n in names)
      ensures Valid() && this.names == names && this.caches == caches
    {
      this.names := names;
      this.caches := caches;
    }

    /** `caches.match(url)`, looking through the caches one by one. */
    method Match(url: Url) returns (r: Option<Response>)
      requires Valid()
      ensures r == Lookup(names, caches, url)
    {
      var i := 0;
      while i < |names|
        invariant 0 <= i <= |names|
        invariant Lookup(names, caches, url) == Lookup(names[i..], caches, url)
      {
        if url in caches[names[i]] {
          return Some(caches[names[i]][url]);
        }
        assert names[i..][1..] == names[i + 1..];
        i := i + 1;
      }
      return None;
    }

    /** `caches.open(name)`: creates the cache, last in order, when it does not exist. */
    method Open(name: string)
      requires Valid()
      modifies this
      ensures Valid() && name in caches
      ensures name in old(caches) ==> names == old(names) && caches == old(caches)
      ensures name !in old(caches) ==> names == old(names) + [name] && caches == old(caches)[name := map[]]
    {
      if name !in caches {
        DistinctAppend(names, name);
        names := names + [name];
        caches := caches[name := map[]];
      }
    }

    /** `cache.put(url, response)` on the cache `name`: replaces any entry for `url`. */
    method Put(name: string, url: Url, response: Response)
      requires Valid() && name in caches
      modifies this
      ensures Valid() && names == old(names)
      ensures caches == old(caches)[name := old(caches)[name][url := response]]
    {
      caches := caches[name := caches[name][url := response]];
    }

    /** Stores a batch of entries in the cache `name` at once, as `cache.addAll` does once every fetch succeeded. */
    method PutAll(name: string, entries: Entries)
      requires Valid() && name in caches
      modifies this
      ensures Valid() && names == old(names)
      ensures caches == old(caches)[name := old(caches)[name] + entries]
    {
      caches := caches[name := caches[name] + entries];
    }

    /** `caches.delete(name)`: drops the cache and its name; reports whether it existed. */
    method Delete(name: string) returns (existed: bool)
      requires Valid()
      modifies this
      ensures Valid()
      ensures existed == (name in old(caches))
      ensures names == Without(old(names), name) && caches == old(caches) - {name}
    {
      existed := name in caches;
      names := Without(names, name);
      caches := caches - {name};
      WithoutKeepsDistinct(old(names), name);
    }
  }

  lemma {:induction false} WithoutKeepsDistinct(s: seq<string>, x: string)
    requires Distinct(s)
    ensures Distinct(Without(s, x))
    decreases |s|
  {
    if s != [] {
      WithoutKeepsDistinct(s[1..], x);
    }
  }
}
