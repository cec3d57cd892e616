/**
 A map read as pointers: each key points at one other node, a node that is no
 key is an end. The fold column of balance_patches and the parent map of the
 account clusters are both such maps.
 */
module PointerForest {

  type Pointers<T> = map<T, T>

  /** The node reached from `x` after at most `n` pointers. */
  ghost function Hop<T>(m: Pointers<T>, x: T, n: nat): T {
    if n == 0 || x !in m then x else Hop(m, m[x], n - 1)
  }

  /** Following the pointers from `x` comes to an end. */
  ghost predicate Ends<T>(m: Pointers<T>, x: T) {
    exists n: nat :: Hop(m, x, n) !in m
  }

  ghost predicate Acyclic<T(!new)>(m: Pointers<T>) {
    forall x :: Ends(m, x)
  }

  /** Where the pointers from `x` end; `x` itself if they never do. */
  ghost function Root<T>(m: Pointers<T>, x: T): T {
    if Ends(m, x) then
      var n: nat :| Hop(m, x, n) !in m;
      Hop(m, x, n)
    else x
  }

  /** `y` lies on the way from `x`, both ends included. */
  ghost predicate Passes<T>(m: Pointers<T>, x: T, y: T) {
    exists n: nat :: Hop(m, x, n) == y
  }

  lemma {:induction false} HopAdd<T>(m: Pointers<T>, x: T, a: nat, b: nat)
    ensures Hop(m, x, a + b) == Hop(m, Hop(m, x, a), b)
  {
    if a > 0 && x in m {
      HopAdd(m, m[x], a - 1, b);
    }
  }

  /** Every way of counting hops to an end gives the same end. */
  lemma {:induction false} RootIs<T>(m: Pointers<T>, x: T, n: nat)
    requires Hop(m, x, n) !in m
    ensures Ends(m, x) && Root(m, x) == Hop(m, x, n)
  {
    var k: nat :| Hop(m, x, k) !in m && Root(m, x) == Hop(m, x, k);
    if k <= n { HopAdd(m, x, k, n - k); } else { HopAdd(m, x, n, k - n); }
  }

  lemma EndsAt<T(!new)>(m: Pointers<T>, x: T)
    requires Acyclic(m)
    ensures Ends(m, x)
  {
  }

  lemma RootNotKey<T>(m: Pointers<T>, x: T)
    requires Ends(m, x)
    ensures Root(m, x) !in m
  {
  }

  lemma RootOfEnd<T>(m: Pointers<T>, x: T)
    requires x !in m
    ensures Ends(m, x) && Root(m, x) == x
  {
    RootIs(m, x, 0);
  }

  lemma RootStep<T>(m: Pointers<T>, x: T)
    requires x in m
    ensures Ends(m, x) <==> Ends(m, m[x])
    ensures Ends(m, x) ==> Root(m, x) == Root(m, m[x])
  {
    if Ends(m, m[x]) {
      var n: nat :| Hop(m, m[x], n) !in m;
      RootIs(m, m[x], n);
      RootIs(m, x, n + 1);
    }
    if Ends(m, x) {
      var n: nat :| Hop(m, x, n) !in m;
      RootIs(m, m[x], n - 1);
    }
  }

  lemma {:induction false} RootAfterHop<T>(m: Pointers<T>, x: T, n: nat)
    ensures Ends(m, x) <==> Ends(m, Hop(m, x, n))
    ensures Ends(m, x) ==> Root(m, x) == Root(m, Hop(m, x, n))
  {
    if n > 0 && x in m {
      RootStep(m, x);
      RootAfterHop(m, m[x], n - 1);
    }
  }

  lemma PassesSameRoot<T>(m: Pointers<T>, x: T, y: T)
    requires Passes(m, x, y)
    ensures Ends(m, x) <==> Ends(m, y)
    ensures Ends(m, x) ==> Root(m, x) == Root(m, y)
  {
    var n: nat :| Hop(m, x, n) == y;
    RootAfterHop(m, x, n);
  }

  lemma PassesStep<T>(m: Pointers<T>, x: T, y: T)
    ensures Passes(m, x, x)
    ensures x in m && x != y ==> (Passes(m, x, y) <==> Passes(m, m[x], y))
    ensures x !in m ==> (Passes(m, x, y) <==> x == y)
  {
    assert Hop(m, x, 0) == x;
    if x in m && x != y {
      if Passes(m, x, y) {
        var n: nat :| Hop(m, x, n) == y;
        assert Hop(m, m[x], n - 1) == y;
      }
      if Passes(m, m[x], y) {
        var n: nat :| Hop(m, m[x], n) == y;
        assert Hop(m, x, n + 1) == y;
      }
    }
  }

  /** A node met twice is met for ever: such a walk has no end. */
  lemma {:induction false} LoopNeverEnds<T>(m: Pointers<T>, x: T, k: nat, n: nat)
    requires k > 0 && Hop(m, x, k) == x && x in m
    ensures Hop(m, x, n) in m
    decreases n
  {
    if n < k {
      HopAdd(m, x, n, k - n);
    } else {
      HopAdd(m, x, k, n - k);
      LoopNeverEnds(m, x, k, n - k);
    }
  }

  /** Pointing `id` at an end `t` re-roots exactly the nodes whose walk passes
      through `id`; nothing else moves and no loop appears. */
  lemma {:induction false} LinkFrom<T>(m: Pointers<T>, id: T, t: T, x: T, n: nat)
    requires t !in m && id != t
    requires Hop(m, x, n) !in m
    ensures Ends(m[id := t], x)
    ensures Root(m[id := t], x) == if Passes(m, x, id) then t else Root(m, x)
    decreases n
  {
    var m' := m[id := t];
    PassesStep(m, x, id);
    if x == id {
      RootOfEnd(m', t);
      RootStep(m', id);
    } else if x !in m {
      RootOfEnd(m', x);
      RootOfEnd(m, x);
    } else {
      LinkFrom(m, id, t, m[x], n - 1);
      RootStep(m', x);
      RootIs(m, x, n);
      RootStep(m, x);
    }
  }

  lemma Link<T(!new)>(m: Pointers<T>, id: T, t: T)
    requires Acyclic(m) && t !in m && id != t
    ensures Acyclic(m[id := t])
    ensures forall x :: Root(m[id := t], x) == if Passes(m, x, id) then t else Root(m, x)
  {
    var m' := m[id := t];
    forall x
      ensures Ends(m', x) && Root(m', x) == if Passes(m, x, id) then t else Root(m, x)
    {
      EndsAt(m, x);
      var n: nat :| Hop(m, x, n) !in m;
      LinkFrom(m, id, t, x, n);
    }
    assert Acyclic(m');
  }

  /** `m` without `id`'s pointer, what pointed at `id` now pointing at `id`'s end. */
  ghost function Unlinked<T>(m: Pointers<T>, id: T): Pointers<T> {
    map x | x in m && x != id :: if m[x] == id then Root(m, id) else m[x]
  }

  lemma {:induction false} UnlinkFrom<T>(m: Pointers<T>, id: T, x: T, n: nat)
    requires id in m && Ends(m, id)
    requires Hop(m, x, n) !in m
    ensures Ends(Unlinked(m, id), x)
    ensures Root(Unlinked(m, id), x) == if x == id then id else Root(m, x)
    decreases n
  {
    var m' := Unlinked(m, id);
    if x !in m' {
      RootOfEnd(m', x);
      if x != id { RootOfEnd(m, x); }
    } else {
      RootStep(m', x);
      RootStep(m, x);
      RootIs(m, x, n);
      if m[x] == id {
        RootOfEnd(m', m'[x]);
      } else {
        UnlinkFrom(m, id, m[x], n - 1);
      }
    }
  }

  lemma Unlink<T(!new)>(m: Pointers<T>, id: T)
    requires Acyclic(m)
    ensures Acyclic(Unlinked(m, id))
    ensures forall x :: Root(Unlinked(m, id), x) == if x == id then id else Root(m, x)
  {
    if id !in m {
      RootOfEnd(m, id);
      assert Unlinked(m, id) == m;
    } else {
      forall x
        ensures Ends(Unlinked(m, id), x)
        ensures Root(Unlinked(m, id), x) == if x == id then id else Root(m, x)
      {
        EndsAt(m, x);
        EndsAt(m, id);
        var n: nat :| Hop(m, x, n) !in m;
        UnlinkFrom(m, id, x, n);
      }
    }
  }

  /** Pointing a node straight at its end (path compression) moves no root. */
  lemma Compress<T(!new)>(m: Pointers<T>, x: T)
    requires Acyclic(m) && x in m
    ensures Acyclic(m[x := Root(m, x)])
    ensures forall y :: Root(m[x := Root(m, x)], y) == Root(m, y)
  {
    EndsAt(m, x);
    var t := Root(m, x);
    Link(m, x, t);
    forall y ensures Root(m[x := t], y) == Root(m, y) {
      if Passes(m, y, x) {
        PassesSameRoot(m, y, x);
        EndsAt(m, y);
      }
    }
  }
}
