/**
 * CacheService: a key/value cache whose keys are strings or arrays of
 * hierarchical segments (joined with '|'), with merge-or-replace puts that
 * can cascade into one derived put per element of a list value.
 *
 * JavaScript objects are shared by reference, so the model keeps them in a
 * heap of handles (`objects`, indexed by `Ref`) and the cache maps each
 * joined key to a handle. Merging into a cached entry updates the object
 * behind its handle, which every holder of that handle observes.
 */
module Cache {
  import opened Json

  type Ref = nat

  /** A key as callers pass it: a plain string or an array of segments. */
  datatype Key = Plain(s: string) | Segments(segs: seq<string>)

  const Delimiter: char := '|'

  /** `keys.join('|')` */
  function MakeKey(keys: seq<string>): string {
    if |keys| == 0 then ""
    else if |keys| == 1 then keys[0]
    else keys[0] + [Delimiter] + MakeKey(keys[1..])
  }

  /** The string under which a key is stored. */
  function RealKey(key: Key): string {
    match key
    case Plain(s) => s
    case Segments(segs) => MakeKey(segs)
  }

  predicate NoDelimiter(segs: seq<string>) {
    forall i | 0 <= i < |segs| :: Delimiter !in segs[i]
  }

  /** The first delimiter of `x + '|' + r` sits right after `x`. */
  lemma NoEarlierDelimiter(x: string, y: string, r1: string, r2: string)
    requires Delimiter !in y && |x| < |y|
    ensures x + [Delimiter] + r1 != y + [Delimiter] + r2
  {
    assert (x + [Delimiter] + r1)[|x|] == Delimiter;
    assert (y + [Delimiter] + r2)[|x|] == y[|x|];
  }

  lemma SplitAtDelimiter(x: string, y: string, r1: string, r2: string)
    requires Delimiter !in x && Delimiter !in y
    requires x + [Delimiter] + r1 == y + [Delimiter] + r2
    ensures x == y && r1 == r2
  {
    var lhs, rhs := x + [Delimiter] + r1, y + [Delimiter] + r2;
    if |x| < |y| {
      NoEarlierDelimiter(x, y, r1, r2);
      assert false;
    } else if |y| < |x| {
      NoEarlierDelimiter(y, x, r2, r1);
      assert false;
    }
    assert x == lhs[..|x|] && y == rhs[..|y|];
    assert r1 == lhs[|x| + 1..] && r2 == rhs[|y| + 1..];
  }

  /** A key of several segments contains the delimiter. */
  lemma JoinedContainsDelimiter(keys: seq<string>)
    requires |keys| > 1
    ensures Delimiter in MakeKey(keys)
  {
    assert MakeKey(keys)[|keys[0]|] == Delimiter;
  }

  /**
   * Joining is injective on non-empty keys whose segments avoid the
   * delimiter: two such keys address the same entry exactly when they are
   * the same list of segments.
   */
  lemma {:induction false} MakeKeyInjective(a: seq<string>, b: seq<string>)
    requires |a| > 0 && |b| > 0 && NoDelimiter(a) && NoDelimiter(b)
    ensures MakeKey(a) == MakeKey(b) <==> a == b
    decreases |a|
  {
    if MakeKey(a) == MakeKey(b) {
      if |a| == 1 && |b| > 1 {
        JoinedContainsDelimiter(b);
      } else if |a| > 1 && |b| == 1 {
        JoinedContainsDelimiter(a);
      } else if |a| > 1 && |b| > 1 {
        SplitAtDelimiter(a[0], b[0], MakeKey(a[1..]), MakeKey(b[1..]));
        assert NoDelimiter(a[1..]) && NoDelimiter(b[1..]);
        MakeKeyInjective(a[1..], b[1..]);
        assert a == [a[0]] + a[1..] && b == [b[0]] + b[1..];
      }
    }
  }

  /** Appending a segment appends the delimiter and the segment to the joined key. */
  lemma {:induction false} MakeKeyAppend(keys: seq<string>, x: string)
    requires |keys| > 0
    ensures MakeKey(keys + [x]) == MakeKey(keys) + [Delimiter] + x
    decreases |keys|
  {
    if |keys| > 1 {
      assert (keys + [x])[1..] == keys[1..] + [x];
      MakeKeyAppend(keys[1..], x);
    }
  }

  /** A joined key starts with its first segment. */
  lemma MakeKeyStartsWith(keys: seq<string>)
    requires |keys| > 0
    ensures |MakeKey(keys)| >= |keys[0]| && MakeKey(keys)[..|keys[0]|] == keys[0]
  {
  }

  /** Keys whose first segments start with different characters never collide. */
  lemma DifferentHeads(a: seq<string>, b: seq<string>)
    requires |a| > 0 && |b| > 0 && |a[0]| > 0 && |b[0]| > 0 && a[0][0] != b[0][0]
    ensures MakeKey(a) != MakeKey(b)
  {
    MakeKeyStartsWith(a);
    MakeKeyStartsWith(b);
    assert MakeKey(a)[0] == MakeKey(a)[..|a[0]|][0];
    assert MakeKey(b)[0] == MakeKey(b)[..|b[0]|][0];
  }

  /** A segment that contains the delimiter makes two different keys collide. */
  lemma DelimiterInSegmentCollides()
    ensures MakeKey(["a|b"]) == MakeKey(["a", "b"])
  {
  }

  /** What a list element's derived put writes: `{key, value, merge}`. */
  datatype Derived = Derived(key: seq<string>, value: Json, merge: bool)

  /** The cache as a value: keys to handles, and the heap behind the handles. */
  datatype Store = Store(cache: map<string, Ref>, objects: seq<Json>)

  predicate WellFormed(st: Store) {
    forall k | k in st.cache :: st.cache[k] < |st.objects|
  }

  /** No two keys share a handle: mutating one entry never changes another. */
  predicate Unaliased(st: Store) {
    forall k1, k2 | k1 in st.cache && k2 in st.cache && k1 != k2 :: st.cache[k1] != st.cache[k2]
  }

  /** `get`: the handle stored under a key, if any. */
  function Lookup(st: Store, rk: string): (r: Option<Ref>)
    ensures r.Some? <==> rk in st.cache
    ensures r.Some? ==> r.value == st.cache[rk]
  {
    if rk in st.cache then Some(st.cache[rk]) else None
  }

  /** The object a key currently shows, if any. */
  function Read(st: Store, rk: string): (r: Option<Json>)
    requires WellFormed(st)
    ensures r.Some? <==> rk in st.cache
    ensures r.Some? ==> r.value == st.objects[st.cache[rk]]
  {
    if rk in st.cache then Some(st.objects[st.cache[rk]]) else None
  }

  /** A new object on the heap; its handle is `|st.objects|`. */
  function WithObject(st: Store, v: Json): (r: Store)
    ensures r.cache == st.cache && r.objects == st.objects + [v]
  {
    Store(st.cache, st.objects + [v])
  }

  /** One put without derived puts. */
  function PutOne(st: Store, rk: string, v: Ref, merge: bool): (r: Store)
    requires WellFormed(st) && v < |st.objects|
    ensures WellFormed(r) && |r.objects| == |st.objects| && rk in r.cache
    ensures r.cache.Keys == st.cache.Keys + {rk}
  {
    if rk in st.cache && merge then
      var at := st.cache[rk];
      Store(st.cache, st.objects[at := MergeTop(st.objects[at], st.objects[v])])
    else
      Store(st.cache[rk := v], st.objects)
  }

  /** The derived put of one list element: its value is an object of its own. */
  function DeriveStep(st: Store, d: Derived): (r: Store)
    requires WellFormed(st)
    ensures WellFormed(r) && |r.objects| == |st.objects| + 1
    ensures r.cache.Keys == st.cache.Keys + {MakeKey(d.key)}
  {
    PutOne(WithObject(st, d.value), MakeKey(d.key), |st.objects|, d.merge)
  }

  /** The derived puts of `items`, in list order. */
  function PutDerived(st: Store, items: seq<Json>, f: Json -> Derived): (r: Store)
    requires WellFormed(st)
    ensures WellFormed(r) && |r.objects| == |st.objects| + |items|
    decreases |items|
  {
    if items == [] then st
    else DeriveStep(PutDerived(st, items[..|items| - 1], f), f(items[|items| - 1]))
  }

  /** The derived puts of a prefix one longer: one more derived put. */
  lemma PutDerivedExtend(st: Store, items: seq<Json>, i: nat, f: Json -> Derived)
    requires WellFormed(st) && i < |items|
    ensures PutDerived(st, items[..i + 1], f) == DeriveStep(PutDerived(st, items[..i], f), f(items[i]))
  {
    assert items[..i + 1][..i] == items[..i];
  }

  /** `put(key, value, merge, func)` as a function of the cache it starts from. */
  function PutSpec(st: Store, rk: string, v: Ref, merge: bool, func: Option<Json -> Derived>): (r: Store)
    requires WellFormed(st) && v < |st.objects|
    ensures WellFormed(r) && |r.objects| >= |st.objects|
  {
    var s1 := PutOne(st, rk, v, merge);
    if func.Some? && s1.objects[v].JArr? then PutDerived(s1, s1.objects[v].items, func.value) else s1
  }

  /**
   * What a put without derived puts shows: with `merge` set and an entry
   * present, the entry keeps its handle and now shows the merge of the new
   * value into it, and so does every key sharing that handle; otherwise the
   * key now holds the new value's handle. No other key changes its handle.
   */
  lemma PutObserved(st: Store, rk: string, v: Ref, merge: bool, k: string)
    requires WellFormed(st) && v < |st.objects|
    ensures var r := PutOne(st, rk, v, merge);
      && (rk in st.cache && merge ==>
            r.cache[rk] == st.cache[rk] && Read(r, rk) == Some(MergeTop(st.objects[st.cache[rk]], st.objects[v])))
      && (!(rk in st.cache && merge) ==> r.cache[rk] == v && Read(r, rk) == Some(st.objects[v]))
      && (k != rk ==> Lookup(r, k) == Lookup(st, k))
      && ((k != rk && k in st.cache && merge && rk in st.cache && st.cache[k] == st.cache[rk]) ==>
            Read(r, k) == Read(r, rk))
      && ((k != rk && k in st.cache && !(merge && rk in st.cache && st.cache[k] == st.cache[rk])) ==>
            Read(r, k) == Read(st, k))
  {
  }

  /**
   * The derived puts create or update exactly the keys the derive function
   * names for the elements, and keep every key that was there.
   */
  lemma {:induction false} PutDerivedKeys(st: Store, items: seq<Json>, f: Json -> Derived)
    requires WellFormed(st)
    ensures forall k :: k in PutDerived(st, items, f).cache <==>
      k in st.cache || exists i | 0 <= i < |items| :: k == MakeKey(f(items[i]).key)
    decreases |items|
  {
    if items != [] {
      var init := items[..|items| - 1];
      var last := f(items[|items| - 1]);
      PutDerivedKeys(st, init, f);
      forall k ensures k in PutDerived(st, items, f).cache <==>
        k in st.cache || exists i | 0 <= i < |items| :: k == MakeKey(f(items[i]).key)
      {
        if exists i | 0 <= i < |items| :: k == MakeKey(f(items[i]).key) {
          var i :| 0 <= i < |items| && k == MakeKey(f(items[i]).key);
          if i < |init| {
            assert init[i] == items[i];
          }
        }
        if exists i | 0 <= i < |init| :: k == MakeKey(f(init[i]).key) {
          var i :| 0 <= i < |init| && k == MakeKey(f(init[i]).key);
          assert init[i] == items[i];
        }
      }
    }
  }

  /** After a cascading put, the put key and every derived key exist. */
  lemma PutSpecKeys(st: Store, rk: string, v: Ref, merge: bool, f: Json -> Derived)
    requires WellFormed(st) && v < |st.objects|
    requires st.objects[v].JArr?
    ensures var items := st.objects[v].items;
      var r := PutSpec(st, rk, v, merge, Some(f));
      && rk in r.cache
      && (forall i | 0 <= i < |items| :: MakeKey(f(items[i]).key) in r.cache)
      && (forall k | k in st.cache :: k in r.cache)
  {
    var s1 := PutOne(st, rk, v, merge);
    if rk in st.cache && merge && st.cache[rk] == v {
      MergeTopSelf(st.objects[v]);
    }
    assert s1.objects[v] == st.objects[v] by {
      if rk in st.cache && merge && st.cache[rk] == v {
      } else if rk in st.cache && merge {
        assert st.cache[rk] != v;
      }
    }
    PutDerivedKeys(s1, st.objects[v].items, f);
  }

  /** A put of a handle no key holds keeps the cache unaliased. */
  lemma PutOneFreshUnaliased(st: Store, rk: string, v: Ref, merge: bool)
    requires WellFormed(st) && v < |st.objects| && Unaliased(st)
    requires forall k | k in st.cache :: st.cache[k] != v
    ensures Unaliased(PutOne(st, rk, v, merge))
  {
  }

  /** Derived puts allocate a fresh object each, so they keep the cache unaliased. */
  lemma {:induction false} PutDerivedUnaliased(st: Store, items: seq<Json>, f: Json -> Derived)
    requires WellFormed(st) && Unaliased(st)
    ensures Unaliased(PutDerived(st, items, f))
    decreases |items|
  {
    if items != [] {
      var s := PutDerived(st, items[..|items| - 1], f);
      PutDerivedUnaliased(st, items[..|items| - 1], f);
      PutOneFreshUnaliased(WithObject(s, f(items[|items| - 1]).value), MakeKey(f(items[|items| - 1]).key), |s.objects|, f(items[|items| - 1]).merge);
    }
  }

  /** The keys the derived puts of `items` write. */
  function DerivedKeys(items: seq<Json>, f: Json -> Derived): set<string> {
    set i | 0 <= i < |items| :: MakeKey(f(items[i]).key)
  }

  /** A key the derived puts do not name keeps its handle and what it shows. */
  lemma {:induction false} PutDerivedOthers(st: Store, items: seq<Json>, f: Json -> Derived, k: string)
    requires WellFormed(st) && Unaliased(st) && k in st.cache && k !in DerivedKeys(items, f)
    ensures var r := PutDerived(st, items, f);
      k in r.cache && r.cache[k] == st.cache[k] && Read(r, k) == Read(st, k)
    decreases |items|
  {
    if items != [] {
      var init := items[..|items| - 1];
      var d := f(items[|items| - 1]);
      assert MakeKey(d.key) in DerivedKeys(items, f);
      forall j | 0 <= j < |init| ensures MakeKey(f(init[j]).key) != k {
        assert init[j] == items[j];
      }
      PutDerivedOthers(st, init, f, k);
      PutDerivedUnaliased(st, init, f);
      var s := PutDerived(st, init, f);
      PutObserved(WithObject(s, d.value), MakeKey(d.key), |s.objects|, d.merge, k);
    }
  }

  /**
   * A merging derived put whose key no other element names leaves that key
   * showing the element's value merged into what the key showed before.
   */
  lemma {:induction false} PutDerivedUnique(st: Store, items: seq<Json>, f: Json -> Derived, i: nat)
    requires WellFormed(st) && Unaliased(st) && i < |items| && f(items[i]).merge
    requires forall j | 0 <= j < |items| && j != i :: MakeKey(f(items[j]).key) != MakeKey(f(items[i]).key)
    ensures var rk := MakeKey(f(items[i]).key);
      Read(PutDerived(st, items, f), rk) == Some(MergeInto(Read(st, rk), f(items[i]).value))
    decreases |items|
  {
    var rk := MakeKey(f(items[i]).key);
    var init := items[..|items| - 1];
    var s := PutDerived(st, init, f);
    var d := f(items[|items| - 1]);
    PutDerivedUnaliased(st, init, f);
    if i == |items| - 1 {
      forall j | 0 <= j < |init| ensures MakeKey(f(init[j]).key) != rk {
        assert init[j] == items[j];
      }
      if rk in st.cache {
        PutDerivedOthers(st, init, f, rk);
      } else {
        PutDerivedKeys(st, init, f);
      }
      assert Read(s, rk) == Read(st, rk);
      PutObserved(WithObject(s, d.value), rk, |s.objects|, d.merge, rk);
    } else {
      forall j | 0 <= j < |init| && j != i
        ensures MakeKey(f(init[j]).key) != MakeKey(f(init[i]).key)
      {
        assert init[j] == items[j] && init[i] == items[i];
      }
      assert init[i] == items[i];
      PutDerivedUnique(st, init, f, i);
      PutDerivedKeys(st, init, f);
      assert rk in s.cache;
      PutObserved(WithObject(s, d.value), MakeKey(d.key), |s.objects|, d.merge, rk);
    }
  }

  /**
   * What the derived puts of `items` leave under `rk`, from what it showed
   * before: each element deriving `rk`, in list order, is merged into it, or
   * replaces it when its put does not merge; a later element with the same
   * key merges into what the earlier ones left.
   */
  function DerivedShows(prev: Option<Json>, items: seq<Json>, f: Json -> Derived, rk: string): (r: Option<Json>)
    ensures rk !in DerivedKeys(items, f) ==> r == prev
    ensures rk in DerivedKeys(items, f) ==> r.Some?
    decreases |items|
  {
    if items == [] then prev
    else
      var init := items[..|items| - 1];
      assert forall j | 0 <= j < |init| :: init[j] == items[j];
      assert DerivedKeys(items, f) == DerivedKeys(init, f) + {MakeKey(f(items[|items| - 1]).key)};
      var p := DerivedShows(prev, init, f, rk);
      var d := f(items[|items| - 1]);
      if MakeKey(d.key) != rk then p
      else if d.merge then Some(MergeInto(p, d.value)) else Some(d.value)
  }

  /** The derived puts leave under every key exactly what `DerivedShows` says. */
  lemma {:induction false} PutDerivedShows(st: Store, items: seq<Json>, f: Json -> Derived, rk: string)
    requires WellFormed(st) && Unaliased(st)
    ensures Read(PutDerived(st, items, f), rk) == DerivedShows(Read(st, rk), items, f, rk)
    decreases |items|
  {
    if items != [] {
      var init := items[..|items| - 1];
      var s := PutDerived(st, init, f);
      var d := f(items[|items| - 1]);
      PutDerivedShows(st, init, f, rk);
      PutDerivedUnaliased(st, init, f);
      var s0 := WithObject(s, d.value);
      assert Read(s0, rk) == Read(s, rk);
      PutObserved(s0, MakeKey(d.key), |s.objects|, d.merge, rk);
    }
  }

  /** With one element alone deriving `rk`, and merging, `rk` shows its value merged into what it showed. */
  lemma {:induction false} DerivedShowsUnique(prev: Option<Json>, items: seq<Json>, f: Json -> Derived, i: nat)
    requires i < |items| && f(items[i]).merge
    requires forall j | 0 <= j < |items| && j != i :: MakeKey(f(items[j]).key) != MakeKey(f(items[i]).key)
    ensures DerivedShows(prev, items, f, MakeKey(f(items[i]).key)) == Some(MergeInto(prev, f(items[i]).value))
    decreases |items|
  {
    var rk := MakeKey(f(items[i]).key);
    var init := items[..|items| - 1];
    if i == |items| - 1 {
      forall j | 0 <= j < |init| ensures MakeKey(f(init[j]).key) != rk {
        assert init[j] == items[j];
      }
      assert rk !in DerivedKeys(init, f);
    } else {
      forall j | 0 <= j < |init| && j != i
        ensures MakeKey(f(init[j]).key) != MakeKey(f(init[i]).key)
      {
        assert init[j] == items[j] && init[i] == items[i];
      }
      assert init[i] == items[i];
      DerivedShowsUnique(prev, init, f, i);
    }
  }

  /** A put of a freshly allocated value keeps the cache unaliased. */
  lemma PutSpecFreshUnaliased(st: Store, rk: string, v: Ref, merge: bool, func: Option<Json -> Derived>)
    requires WellFormed(st) && v < |st.objects| && Unaliased(st)
    requires forall k | k in st.cache :: st.cache[k] != v
    ensures Unaliased(PutSpec(st, rk, v, merge, func))
  {
    PutOneFreshUnaliased(st, rk, v, merge);
    var s1 := PutOne(st, rk, v, merge);
    if func.Some? && s1.objects[v].JArr? {
      PutDerivedUnaliased(s1, s1.objects[v].items, func.value);
    }
  }

  /**
   * `put(key, list, false, func)` of a freshly allocated list: the key is
   * replaced by the list, then each element gets its derived put.
   */
  function ListPut(st: Store, rk: string, v: Json, f: Json -> Derived): (r: Store)
    requires WellFormed(st)
    ensures WellFormed(r)
  {
    PutSpec(WithObject(st, v), rk, |st.objects|, false, Some(f))
  }

  /** The derived keys of a list put, none when the value is not a list. */
  function ListKeys(v: Json, f: Json -> Derived): set<string> {
    if v.JArr? then DerivedKeys(v.items, f) else {}
  }

  /** A list put keeps the cache unaliased. */
  lemma ListPutUnaliased(st: Store, rk: string, v: Json, f: Json -> Derived)
    requires WellFormed(st) && Unaliased(st)
    ensures Unaliased(ListPut(st, rk, v, f))
  {
    var s0 := WithObject(st, v);
    PutSpecFreshUnaliased(s0, rk, |st.objects|, false, Some(f));
  }

  /** A list put adds exactly the key and the keys derived from the list's elements. */
  lemma ListPutKeys(st: Store, rk: string, v: Json, f: Json -> Derived)
    requires WellFormed(st)
    ensures ListPut(st, rk, v, f).cache.Keys == st.cache.Keys + {rk} + ListKeys(v, f)
  {
    var h := |st.objects|;
    var s0 := WithObject(st, v);
    var s1 := PutOne(s0, rk, h, false);
    assert s1.objects[h] == v;
    if v.JArr? {
      PutDerivedKeys(s1, v.items, f);
      var r := PutDerived(s1, v.items, f);
      forall k ensures k in r.cache <==> k in st.cache.Keys + {rk} + ListKeys(v, f) {
        if exists i | 0 <= i < |v.items| :: k == MakeKey(f(v.items[i]).key) {
          var i :| 0 <= i < |v.items| && k == MakeKey(f(v.items[i]).key);
          assert k in DerivedKeys(v.items, f);
        }
      }
    }
  }

  /**
   * After a list put the key shows the list, unless an element's derived
   * key is the key itself, and every other key the derived puts do not
   * name keeps its handle and what it shows.
   */
  lemma ListPutShows(st: Store, rk: string, v: Json, f: Json -> Derived)
    requires WellFormed(st) && Unaliased(st)
    ensures var r := ListPut(st, rk, v, f);
      && (rk !in ListKeys(v, f) ==> Read(r, rk) == Some(v))
      && (forall k | k in st.cache && k != rk && k !in ListKeys(v, f) ::
            k in r.cache && r.cache[k] == st.cache[k] && Read(r, k) == Read(st, k))
  {
    var h := |st.objects|;
    var s0 := WithObject(st, v);
    var s1 := PutOne(s0, rk, h, false);
    PutOneFreshUnaliased(s0, rk, h, false);
    assert s1.objects[h] == v;
    forall k | k in st.cache && k != rk && k !in ListKeys(v, f)
      ensures var r := ListPut(st, rk, v, f);
        k in r.cache && r.cache[k] == st.cache[k] && Read(r, k) == Read(st, k)
    {
      PutObserved(s0, rk, h, false, k);
      if v.JArr? {
        PutDerivedOthers(s1, v.items, f, k);
      }
    }
    if v.JArr? && rk !in ListKeys(v, f) {
      PutDerivedOthers(s1, v.items, f, rk);
    }
  }

  /**
   * After a list put, an element whose derived put merges and whose derived
   * key no other element and not the list key names shows under that key
   * its value merged into what the key showed before.
   */
  lemma ListPutItem(st: Store, rk: string, v: Json, f: Json -> Derived, i: nat)
    requires WellFormed(st) && Unaliased(st) && v.JArr? && i < |v.items| && f(v.items[i]).merge
    requires MakeKey(f(v.items[i]).key) != rk
    requires forall j | 0 <= j < |v.items| && j != i :: MakeKey(f(v.items[j]).key) != MakeKey(f(v.items[i]).key)
    ensures var k := MakeKey(f(v.items[i]).key);
      Read(ListPut(st, rk, v, f), k) == Some(MergeInto(Read(st, k), f(v.items[i]).value))
  {
    var h := |st.objects|;
    var s0 := WithObject(st, v);
    var s1 := PutOne(s0, rk, h, false);
    var k := MakeKey(f(v.items[i]).key);
    PutOneFreshUnaliased(s0, rk, h, false);
    PutObserved(s0, rk, h, false, k);
    assert s1.objects[h] == v;
    assert Read(s1, k) == Read(st, k);
    PutDerivedUnique(s1, v.items, f, i);
  }

  /**
   * After a list put, every key other than the list key shows what the
   * elements' derived puts, in list order, leave on top of what it showed
   * before, whether or not several elements name the same key.
   */
  lemma ListPutSeeds(st: Store, rk: string, v: Json, f: Json -> Derived, k: string)
    requires WellFormed(st) && Unaliased(st) && v.JArr? && k != rk
    ensures Read(ListPut(st, rk, v, f), k) == DerivedShows(Read(st, k), v.items, f, k)
  {
    var h := |st.objects|;
    var s0 := WithObject(st, v);
    var s1 := PutOne(s0, rk, h, false);
    PutOneFreshUnaliased(s0, rk, h, false);
    PutObserved(s0, rk, h, false, k);
    assert s1.objects[h] == v;
    assert Read(s1, k) == Read(st, k);
    PutDerivedShows(s1, v.items, f, k);
  }

  /** What a merging put shows under its key: the merge into what was there, or the value itself. */
  function MergeInto(prev: Option<Json>, v: Json): (r: Json)
    ensures prev.None? ==> r == v
    ensures prev.Some? ==> r == MergeTop(prev.value, v)
  {
    if prev.Some? then MergeTop(prev.value, v) else v
  }

  /**
   * `put(key, value, true)` of a freshly allocated value, the way every
   * service stores a response or a copy: the key shows the value merged
   * into what it showed before, every key keeps its handle, and, when no
   * two keys share a handle, no other key shows anything new.
   */
  function MergePut(st: Store, rk: string, v: Json): (r: Store)
    requires WellFormed(st)
    ensures WellFormed(r) && |r.objects| == |st.objects| + 1
    ensures r.cache.Keys == st.cache.Keys + {rk}
    ensures Read(r, rk) == Some(MergeInto(Read(st, rk), v))
    ensures forall k | k in st.cache :: r.cache[k] == st.cache[k]
    ensures Unaliased(st) ==> Unaliased(r)
    ensures Unaliased(st) ==> forall k | k in st.cache && k != rk :: Read(r, k) == Read(st, k)
  {
    var s1 := WithObject(st, v);
    PutOneFreshUnaliasedWhen(s1, rk, |st.objects|);
    PutOne(s1, rk, |st.objects|, true)
  }

  lemma PutOneFreshUnaliasedWhen(st: Store, rk: string, v: Ref)
    requires WellFormed(st) && v < |st.objects|
    requires forall k | k in st.cache :: st.cache[k] != v
    ensures Unaliased(st) ==> Unaliased(PutOne(st, rk, v, true))
  {
    if Unaliased(st) {
      PutOneFreshUnaliased(st, rk, v, true);
    }
  }

  /** Two merging puts of `{a: 1}` and `{b: 2}` leave `{a: 1, b: 2}` under the key. */
  lemma MergingPutsCombine(st: Store, rk: string)
    requires WellFormed(st) && rk !in st.cache
    ensures var a := JObj(map["a" := JNum(1)]);
      var b := JObj(map["b" := JNum(2)]);
      var s1 := WithObject(st, a);
      var s2 := PutOne(s1, rk, |st.objects|, true);
      var s3 := WithObject(s2, b);
      var s4 := PutOne(s3, rk, |st.objects| + 1, true);
      Read(s4, rk) == Some(JObj(map["a" := JNum(1), "b" := JNum(2)]))
  {
    var a := JObj(map["a" := JNum(1)]);
    var b := JObj(map["b" := JNum(2)]);
    MergeIntoNothing(JNum(2));
    assert Merge(a, b).fields == map["a" := JNum(1), "b" := JNum(2)];
  }

  class CacheService {
    var cache: map<string, Ref>
    var objects: seq<Json>

    function State(): Store
      reads this
    {
      Store(cache, objects)
    }

    ghost predicate Valid()
      reads this
    {
      WellFormed(State())
    }

    constructor ()
      ensures Valid() && cache == map[] && objects == []
    {
      cache := map[];
      objects := [];
    }

    /** A new object on the heap (a response value, a clone). */
    method Alloc(v: Json) returns (r: Ref)
      requires Valid()
      modifies this
      ensures Valid() && State() == WithObject(old(State()), v) && r == |old(objects)|
    {
      r := |objects|;
      objects := objects + [v];
    }

    /**
     * `put(key, value, true)` of a value no key holds yet, the way the
     * services store a response or a copy: allocate it, then merge-put it.
     */
    method PutMerged(key: seq<string>, v: Json) returns (r: Ref)
      requires Valid() && Unaliased(State())
      modifies this
      ensures Valid() && Unaliased(State())
      ensures State() == MergePut(old(State()), MakeKey(key), v)
      ensures r == cache[MakeKey(key)]
    {
      var h := Alloc(v);
      r := Put(Segments(key), h, true, None);
    }

    /** A write through a handle a caller holds (`resp.x = ...`, `_.merge(edit, ...)`). */
    method Mutate(h: Ref, v: Json)
      requires Valid() && h < |objects|
      modifies this
      ensures Valid() && cache == old(cache) && objects == old(objects)[h := v]
    {
      objects := objects[h := v];
    }

    method Get(key: Key) returns (r: Option<Ref>)
      requires Valid()
      ensures r == Lookup(State(), RealKey(key))
      ensures r.Some? ==> r.value < |objects|
    {
      var realkey := RealKey(key);
      if realkey in cache {
        r := Some(cache[realkey]);
      } else {
        r := None;
      }
    }

    method Exists(key: Key) returns (b: bool)
      ensures b <==> RealKey(key) in cache
    {
      b := RealKey(key) in cache;
    }

    /** Removes the entry and returns the handle it held. */
    method Remove(key: Key) returns (r: Option<Ref>)
      requires Valid()
      modifies this
      ensures Valid()
      ensures cache == old(cache) - {RealKey(key)} && objects == old(objects)
      ensures r == Lookup(old(State()), RealKey(key))
    {
      var realkey := RealKey(key);
      r := if realkey in cache then Some(cache[realkey]) else None;
      cache := cache - {realkey};
    }

    /**
     * Merges into or replaces the entry under `key`, then, when a derive
     * function is given and the value is a list, puts the descriptor it
     * returns for each element. Returns the handle the key holds at the end.
     */
    method Put(key: Key, value: Ref, merge: bool, func: Option<Json -> Derived>) returns (r: Ref)
      requires Valid() && value < |objects|
      modifies this
      ensures Valid()
      ensures State() == PutSpec(old(State()), RealKey(key), value, merge, func)
      ensures RealKey(key) in cache && r == cache[RealKey(key)]
      decreases if func.Some? then 2 else 0
    {
      var realkey := RealKey(key);
      if realkey in cache && merge {
        objects := objects[cache[realkey] := MergeTop(objects[cache[realkey]], objects[value])];
      } else {
        cache := cache[realkey := value];
      }
      if func.Some? && objects[value].JArr? {
        PutEach(objects[value].items, func.value);
      }
      r := cache[realkey];
    }

    /** The `forEach` of `put`: one derived put per element of `items`, in order. */
    method PutEach(items: seq<Json>, f: Json -> Derived)
      requires Valid()
      modifies this
      ensures Valid() && State() == PutDerived(old(State()), items, f)
      ensures old(cache).Keys <= cache.Keys
      decreases 1
    {
      ghost var s1 := State();
      var i := 0;
      while i < |items|
        invariant 0 <= i <= |items|
        invariant Valid() && s1.cache.Keys <= cache.Keys
        invariant State() == PutDerived(s1, items[..i], f)
      {
        var ob := f(items[i]);
        var h := Alloc(ob.value);
        var _ := Put(Segments(ob.key), h, ob.merge, None);
        PutDerivedExtend(s1, items, i, f);
        i := i + 1;
      }
      assert items[..i] == items;
    }
  }
}
