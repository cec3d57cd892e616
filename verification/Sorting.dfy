/** A stable sort, largest key first, standing for the library's `sort((x, y) => y - x)`. */
module Sorting {

  ghost predicate Descending<T(!new)>(s: seq<T>, key: T -> real) {
    forall i, j | 0 <= i < j < |s| :: key(s[i]) >= key(s[j])
  }

  /** `x` goes after those with as large a key. */
  function Insert<T>(s: seq<T>, x: T, key: T -> real): seq<T> {
    if s == [] || key(s[|s| - 1]) >= key(x) then s + [x]
    else Insert(s[..|s| - 1], x, key) + [s[|s| - 1]]
  }

  function Sort<T>(s: seq<T>, key: T -> real): seq<T> {
    if s == [] then [] else Insert(Sort(s[..|s| - 1], key), s[|s| - 1], key)
  }

  lemma {:induction false} InsertHas<T>(s: seq<T>, x: T, key: T -> real)
    ensures multiset(Insert(s, x, key)) == multiset(s) + multiset{x}
    decreases |s|
  {
    if s != [] && key(s[|s| - 1]) < key(x) {
      InsertHas(s[..|s| - 1], x, key);
      assert s == s[..|s| - 1] + [s[|s| - 1]];
    }
  }

  lemma {:induction false} InsertDescends<T(!new)>(s: seq<T>, x: T, key: T -> real)
    requires Descending(s, key)
    ensures Descending(Insert(s, x, key), key)
    decreases |s|
  {
    if s == [] || key(s[|s| - 1]) >= key(x) {
      forall y | y in s ensures key(y) >= key(x) {
        var i :| 0 <= i < |s| && s[i] == y;
        assert i < |s| - 1 ==> key(s[i]) >= key(s[|s| - 1]);
      }
      AppendDescends(s, x, key);
    } else {
      var rest, last := s[..|s| - 1], s[|s| - 1];
      InsertDescends(rest, x, key);
      InsertHas(rest, x, key);
      forall y | y in Insert(rest, x, key) ensures key(y) >= key(last) {
        assert y in multiset(Insert(rest, x, key));
        if y in rest {
          var i :| 0 <= i < |rest| && rest[i] == y;
          assert s[i] == y;
        }
      }
      AppendDescends(Insert(rest, x, key), last, key);
    }
  }

  lemma AppendDescends<T(!new)>(s: seq<T>, x: T, key: T -> real)
    requires Descending(s, key) && forall y | y in s :: key(y) >= key(x)
    ensures Descending(s + [x], key)
  {
  }

  lemma {:induction false} SortSorts<T(!new)>(s: seq<T>, key: T -> real)
    ensures multiset(Sort(s, key)) == multiset(s) && |Sort(s, key)| == |s| && Descending(Sort(s, key), key)
    decreases |s|
  {
    if s != [] {
      var rest := s[..|s| - 1];
      SortSorts(rest, key);
      InsertHas(Sort(rest, key), s[|s| - 1], key);
      InsertDescends(Sort(rest, key), s[|s| - 1], key);
      assert s == rest + [s[|s| - 1]];
    }
    assert |multiset(Sort(s, key))| == |Sort(s, key)| && |multiset(s)| == |s|;
  }

  // ---------- stability ----------

  /** The elements of one key, in their order. */
  function OfKey<T>(s: seq<T>, key: T -> real, k: real): seq<T> {
    if s == [] then []
    else OfKey(s[..|s| - 1], key, k) + if key(s[|s| - 1]) == k then [s[|s| - 1]] else []
  }

  lemma OfKeyMore<T>(s: seq<T>, x: T, key: T -> real, k: real)
    ensures OfKey(s + [x], key, k) == OfKey(s, key, k) + if key(x) == k then [x] else []
  {
    assert (s + [x])[..|s|] == s;
  }

  lemma {:induction false} InsertIsStable<T>(s: seq<T>, x: T, key: T -> real, k: real)
    ensures OfKey(Insert(s, x, key), key, k) == OfKey(s + [x], key, k)
    decreases |s|
  {
    if s != [] && key(s[|s| - 1]) < key(x) {
      var rest, last := s[..|s| - 1], s[|s| - 1];
      InsertIsStable(rest, x, key, k);
      OfKeyMore(Insert(rest, x, key), last, key, k);
      OfKeyMore(rest, x, key, k);
      OfKeyMore(s, x, key, k);
    }
  }

  /** Elements of equal key keep their order. */
  lemma {:induction false} SortIsStable<T>(s: seq<T>, key: T -> real, k: real)
    ensures OfKey(Sort(s, key), key, k) == OfKey(s, key, k)
    decreases |s|
  {
    if s != [] {
      var rest, last := s[..|s| - 1], s[|s| - 1];
      SortIsStable(rest, key, k);
      InsertIsStable(Sort(rest, key), last, key, k);
      OfKeyMore(Sort(rest, key), last, key, k);
    }
  }

  /** Those of at least that key, in their order. */
  function AtLeast<T>(s: seq<T>, key: T -> real, k: real): seq<T> {
    if s == [] then []
    else AtLeast(s[..|s| - 1], key, k) + if key(s[|s| - 1]) >= k then [s[|s| - 1]] else []
  }

  lemma {:induction false} AtLeastHas<T(!new)>(s: seq<T>, key: T -> real, k: real)
    ensures forall x :: x in AtLeast(s, key, k) <==> x in s && key(x) >= k
    decreases |s|
  {
    if s != [] {
      assert s == s[..|s| - 1] + [s[|s| - 1]];
      AtLeastHas(s[..|s| - 1], key, k);
    }
  }

  lemma AtLeastMore<T>(s: seq<T>, x: T, key: T -> real, k: real)
    ensures AtLeast(s + [x], key, k) == AtLeast(s, key, k) + if key(x) >= k then [x] else []
  {
    assert (s + [x])[..|s|] == s;
  }

  /** `x` goes past `last` when its key is larger. */
  lemma InsertBefore<T>(s: seq<T>, last: T, x: T, key: T -> real)
    ensures Insert(s + [last], x, key) == if key(last) >= key(x) then s + [last] + [x] else Insert(s, x, key) + [last]
  {
    assert (s + [last])[..|s|] == s;
  }

  lemma AtLeastOfNone<T>(x: T, key: T -> real, k: real)
    ensures AtLeast(Insert([], x, key), key, k) ==
      if key(x) >= k then Insert(AtLeast([], key, k), x, key) else AtLeast([], key, k)
  {
    AtLeastMore([], x, key, k);
  }

  /** One step of the next lemma: `kept` and `grown` are what is kept of `s` without and with `x`. */
  lemma AtLeastStep<T>(s: seq<T>, last: T, x: T, key: T -> real, k: real, kept: seq<T>, grown: seq<T>)
    requires kept == AtLeast(s, key, k) && grown == AtLeast(Insert(s, x, key), key, k)
    requires grown == if key(x) >= k then Insert(kept, x, key) else kept
    ensures AtLeast(Insert(s + [last], x, key), key, k) ==
      if key(x) >= k then Insert(AtLeast(s + [last], key, k), x, key) else AtLeast(s + [last], key, k)
  {
    hide AtLeast, Insert;
    InsertBefore(s, last, x, key);
    AtLeastMore(s, last, key, k);
    InsertBefore(kept, last, x, key);
    AtLeastMore(s + [last], x, key, k);
    AtLeastMore(Insert(s, x, key), last, key, k);
  }

  lemma {:induction false} AtLeastInserted<T>(s: seq<T>, x: T, key: T -> real, k: real)
    ensures AtLeast(Insert(s, x, key), key, k) ==
      if key(x) >= k then Insert(AtLeast(s, key, k), x, key) else AtLeast(s, key, k)
    decreases |s|
  {
    hide *;
    if s == [] {
      AtLeastOfNone(x, key, k);
    } else {
      var rest, last := s[..|s| - 1], s[|s| - 1];
      AtLeastInserted(rest, x, key, k);
      AtLeastStep(rest, last, x, key, k, AtLeast(rest, key, k), AtLeast(Insert(rest, x, key), key, k));
      assert s == rest + [last];
    }
  }

  lemma SortMore<T>(s: seq<T>, x: T, key: T -> real)
    ensures Sort(s + [x], key) == Insert(Sort(s, key), x, key)
  {
    assert (s + [x])[..|s|] == s;
  }

  lemma CutStep<T>(s: seq<T>, last: T, key: T -> real, k: real, cut: seq<T>)
    requires cut == AtLeast(s, key, k) && AtLeast(Sort(s, key), key, k) == Sort(cut, key)
    ensures AtLeast(Sort(s + [last], key), key, k) == Sort(AtLeast(s + [last], key, k), key)
  {
    hide *;
    SortMore(s, last, key);
    AtLeastInserted(Sort(s, key), last, key, k);
    AtLeastMore(s, last, key, k);
    SortMore(cut, last, key);
    if key(last) < k { assert cut + [] == cut; }
  }

  /** Cutting a sorted list off at a key is sorting what has at least that key. */
  lemma {:induction false} CutSorted<T>(s: seq<T>, key: T -> real, k: real)
    ensures AtLeast(Sort(s, key), key, k) == Sort(AtLeast(s, key, k), key)
    decreases |s|
  {
    if s != [] {
      var rest, last := s[..|s| - 1], s[|s| - 1];
      CutSorted(rest, key, k);
      CutStep(rest, last, key, k, AtLeast(rest, key, k));
      assert s == rest + [last];
    }
  }
}
