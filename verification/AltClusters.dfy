/**
 Related accounts (altClusters in src/altHolds.ts): a union-find over the edges
 that tie two accounts together, with the path of each lookup compressed.
 */
module AltClusters {
  import opened PointerForest
  import opened Seqs

  type Account = int

  /** `signal` stands for what tied the two accounts, and when. */
  datatype Edge = Edge(a: Account, b: Account, signal: string)

  type Parents = map<Account, Account>

  /** A root is its own parent. */
  function Links(parent: Parents): Pointers<Account> {
    map x | x in parent && parent[x] != x :: parent[x]
  }

  ghost predicate Valid(parent: Parents) {
    Acyclic(Links(parent)) && forall x | x in parent :: parent[x] in parent
  }

  ghost function Rep(parent: Parents, x: Account): Account {
    Root(Links(parent), x)
  }

  // ---------- the reference: chains of edges ----------

  ghost predicate Tied(edges: seq<Edge>, x: Account, y: Account) {
    exists e :: e in edges && ((e.a == x && e.b == y) || (e.a == y && e.b == x))
  }

  /** Each account on the way is tied to the next. */
  ghost predicate Chain(edges: seq<Edge>, path: seq<Account>) {
    path != [] && forall i | 0 <= i < |path| - 1 :: Tied(edges, path[i], path[i + 1])
  }

  ghost predicate ChainBetween(edges: seq<Edge>, path: seq<Account>, x: Account, y: Account) {
    Chain(edges, path) && path[0] == x && path[|path| - 1] == y
  }

  ghost predicate Connected(edges: seq<Edge>, x: Account, y: Account) {
    exists path :: ChainBetween(edges, path, x, y)
  }

  lemma ConnectedToItself(edges: seq<Edge>, x: Account)
    ensures Connected(edges, x, x)
  {
    assert ChainBetween(edges, [x], x, x);
  }

  lemma TiedIsConnected(edges: seq<Edge>, x: Account, y: Account)
    requires Tied(edges, x, y)
    ensures Connected(edges, x, y)
  {
    assert ChainBetween(edges, [x, y], x, y);
  }

  lemma ConnectedThrough(edges: seq<Edge>, x: Account, y: Account, z: Account)
    requires Connected(edges, x, y) && Connected(edges, y, z)
    ensures Connected(edges, x, z)
  {
    var p :| ChainBetween(edges, p, x, y);
    var q :| ChainBetween(edges, q, y, z);
    var r := p + q[1..];
    forall i | 0 <= i < |r| - 1 ensures Tied(edges, r[i], r[i + 1]) {
      if i >= |p| - 1 { assert r[i] == q[i - (|p| - 1)] && r[i + 1] == q[i - (|p| - 1) + 1]; }
    }
    assert ChainBetween(edges, r, x, z);
  }

  lemma ConnectedBack(edges: seq<Edge>, x: Account, y: Account)
    requires Connected(edges, x, y)
    ensures Connected(edges, y, x)
  {
    var p :| ChainBetween(edges, p, x, y);
    var r := seq(|p|, i requires 0 <= i < |p| => p[|p| - 1 - i]);
    forall i | 0 <= i < |r| - 1 ensures Tied(edges, r[i], r[i + 1]) {
      assert Tied(edges, p[|p| - 2 - i], p[|p| - 2 - i + 1]);
    }
    assert ChainBetween(edges, r, y, x);
  }

  lemma MoreEdgesTieMore(edges: seq<Edge>, e: Edge, x: Account, y: Account)
    requires Tied(edges, x, y)
    ensures Tied(edges + [e], x, y)
  {
    var f :| f in edges && ((f.a == x && f.b == y) || (f.a == y && f.b == x));
    assert f in edges + [e];
  }

  lemma MoreEdgesConnectMore(edges: seq<Edge>, e: Edge, x: Account, y: Account)
    requires Connected(edges, x, y)
    ensures Connected(edges + [e], x, y)
  {
    var p :| ChainBetween(edges, p, x, y);
    forall i | 0 <= i < |p| - 1 ensures Tied(edges + [e], p[i], p[i + 1]) {
      assert Tied(edges, p[i], p[i + 1]);
      MoreEdgesTieMore(edges, e, p[i], p[i + 1]);
    }
    assert ChainBetween(edges + [e], p, x, y);
  }

  /** `x` and `y` are connected before `e`, or `e` joins their components. */
  ghost predicate JoinedBy(edges: seq<Edge>, e: Edge, x: Account, y: Account) {
    || Connected(edges, x, y)
    || (Connected(edges, x, e.a) && Connected(edges, e.b, y))
    || (Connected(edges, x, e.b) && Connected(edges, e.a, y))
  }

  lemma {:induction false} ChainIsJoined(edges: seq<Edge>, e: Edge, path: seq<Account>)
    requires Chain(edges + [e], path)
    ensures JoinedBy(edges, e, path[0], path[|path| - 1])
    decreases |path|
  {
    var x, y := path[0], path[|path| - 1];
    if |path| == 1 {
      ConnectedToItself(edges, x);
    } else {
      var z := path[1];
      assert Chain(edges + [e], path[1..]) by {
        forall i | 0 <= i < |path| - 2 ensures Tied(edges + [e], path[1..][i], path[1..][i + 1]) {
          assert Tied(edges + [e], path[i + 1], path[i + 1 + 1]);
        }
      }
      ChainIsJoined(edges, e, path[1..]);
      assert Tied(edges + [e], path[0], path[0 + 1]);
      FirstTieJoins(edges, e, x, z, y);
    }
  }

  lemma FirstTieJoins(edges: seq<Edge>, e: Edge, x: Account, z: Account, y: Account)
    requires Tied(edges + [e], x, z) && JoinedBy(edges, e, z, y)
    ensures JoinedBy(edges, e, x, y)
  {
    ConnectedToItself(edges, e.a);
    ConnectedToItself(edges, e.b);
    var f :| f in edges + [e] && ((f.a == x && f.b == z) || (f.a == z && f.b == x));
    if f in edges {
      assert Tied(edges, x, z);
      TiedIsConnected(edges, x, z);
      if Connected(edges, z, y) { ConnectedThrough(edges, x, z, y); }
      if Connected(edges, z, e.a) { ConnectedThrough(edges, x, z, e.a); }
      if Connected(edges, z, e.b) { ConnectedThrough(edges, x, z, e.b); }
    } else if Connected(edges, e.a, y) || Connected(edges, e.b, y) {
      assert f == e;
      if Connected(edges, e.b, e.a) && Connected(edges, e.a, y) { ConnectedThrough(edges, e.b, e.a, y); }
    }
  }

  lemma JoinIsConnected(edges: seq<Edge>, e: Edge, x: Account, y: Account)
    ensures Connected(edges + [e], x, y) <==> JoinedBy(edges, e, x, y)
  {
    if Connected(edges + [e], x, y) {
      var p :| ChainBetween(edges + [e], p, x, y);
      ChainIsJoined(edges, e, p);
    }
    if JoinedBy(edges, e, x, y) {
      var all := edges + [e];
      assert e in all;
      assert Tied(all, e.a, e.b) && Tied(all, e.b, e.a);
      TiedIsConnected(all, e.a, e.b);
      TiedIsConnected(all, e.b, e.a);
      if Connected(edges, x, y) {
        MoreEdgesConnectMore(edges, e, x, y);
      } else if Connected(edges, x, e.a) && Connected(edges, e.b, y) {
        MoreEdgesConnectMore(edges, e, x, e.a);
        MoreEdgesConnectMore(edges, e, e.b, y);
        ConnectedThrough(all, x, e.a, e.b);
        ConnectedThrough(all, x, e.b, y);
      } else {
        MoreEdgesConnectMore(edges, e, x, e.b);
        MoreEdgesConnectMore(edges, e, e.a, y);
        ConnectedThrough(all, x, e.b, e.a);
        ConnectedThrough(all, x, e.a, y);
      }
    }
  }

  // ---------- the union-find ----------

  /** Two accounts have one root exactly when a chain of edges links them. */
  ghost predicate Represents(parent: Parents, edges: seq<Edge>) {
    && Valid(parent)
    && (forall e | e in edges :: e.a in parent && e.b in parent)
    && forall x, y :: Rep(parent, x) == Rep(parent, y) <==> Connected(edges, x, y)
  }

  ghost predicate SameReps(p: Parents, q: Parents) {
    forall x :: Rep(p, x) == Rep(q, x)
  }

  /** `if (!parent.has(x)) parent.set(x, x)`. */
  function Added(parent: Parents, x: Account): Parents {
    if x in parent then parent else parent[x := x]
  }

  lemma AddKeeps(parent: Parents, x: Account)
    requires Valid(parent)
    ensures Valid(Added(parent, x)) && SameReps(parent, Added(parent, x))
  {
    assert Links(Added(parent, x)) == Links(parent);
  }

  lemma RootIsKept(parent: Parents, x: Account)
    requires Valid(parent) && x in parent
    ensures Rep(parent, x) in parent && parent[Rep(parent, x)] == Rep(parent, x)
  {
    var m := Links(parent);
    EndsAt(m, x);
    var n: nat :| Hop(m, x, n) !in m && Root(m, x) == Hop(m, x, n);
    HopKept(parent, x, n);
  }

  lemma {:induction false} HopKept(parent: Parents, x: Account, n: nat)
    requires Valid(parent) && x in parent
    ensures Hop(Links(parent), x, n) in parent
    decreases n
  {
    if n > 0 && x in Links(parent) { HopKept(parent, Links(parent)[x], n - 1); }
  }

  /** Compressing `x` to its root changes no root, and keeps a root a root. */
  lemma CompressKeeps(parent: Parents, x: Account)
    requires Valid(parent)
    ensures
      var q := parent[x := Rep(parent, x)];
      Valid(q) && SameReps(parent, q)
  {
    var m := Links(parent);
    var q := parent[x := Rep(parent, x)];
    if x in m {
      RootIsKept(parent, x);
      EndsAt(m, x);
      RootNotKey(m, x);
      assert Links(q) == m[x := Root(m, x)];
      Compress(m, x);
    } else {
      RootOfEnd(m, x);
      assert Links(q) == m;
    }
  }

  /** Linking one root under another joins the two components. */
  lemma UnionJoins(parent: Parents, ra: Account, rb: Account)
    requires Valid(parent) && ra in parent && rb in parent && ra != rb
    requires Rep(parent, ra) == ra && Rep(parent, rb) == rb
    ensures
      var q := parent[ra := rb];
      && Valid(q)
      && forall x :: Rep(q, x) == if Rep(parent, x) == ra then rb else Rep(parent, x)
  {
    var m := Links(parent);
    var q := parent[ra := rb];
    EndsAt(m, ra);
    EndsAt(m, rb);
    RootNotKey(m, ra);
    RootNotKey(m, rb);
    assert Links(q) == m[ra := rb];
    Link(m, ra, rb);
    forall x ensures Rep(q, x) == if Rep(parent, x) == ra then rb else Rep(parent, x) {
      EndsAt(m, x);
      var n: nat :| Hop(m, x, n) !in m && Root(m, x) == Hop(m, x, n);
      if Passes(m, x, ra) { PassesSameRoot(m, x, ra); }
    }
  }

  /** Follows the parents of `x` to its root, then points `x` straight at it. */
  method Find(parent: Parents, x: Account) returns (r: Account, parent': Parents)
    requires Valid(parent)
    ensures r == Rep(parent, x) && parent' == parent[x := r]
    ensures Valid(parent') && SameReps(parent, parent')
    ensures x in parent ==> r in parent && Rep(parent, r) == r
  {
    ghost var m := Links(parent);
    EndsAt(m, x);
    ghost var n: nat :| Hop(m, x, n) !in m;
    ghost var k: nat := 0;
    r := x;
    while r in parent && parent[r] != r
      invariant k <= n && r == Hop(m, x, k)
      decreases n - k
    {
      HopAdd(m, x, k, 1);
      if k == n { assert false; }
      r, k := parent[r], k + 1;
    }
    RootIs(m, x, k);
    RootOfEnd(m, r);
    if x in parent { RootIsKept(parent, x); }
    CompressKeeps(parent, x);
    parent' := parent[x := r];
  }

  method Union(parent: Parents, e: Edge, ghost edges: seq<Edge>) returns (parent': Parents)
    requires Represents(parent, edges)
    ensures Represents(parent', edges + [e])
  {
    AddKeeps(parent, e.a);
    AddKeeps(Added(parent, e.a), e.b);
    parent' := Added(Added(parent, e.a), e.b);
    var ra, p := Find(parent', e.a);
    var rb, q := Find(p, e.b);
    if ra != rb { UnionJoins(q, ra, rb); }
    UnionRepresents(parent, q, edges, e, ra, rb);
    parent' := if ra != rb then q[ra := rb] else q;
  }

  lemma UnionRepresents(parent: Parents, q: Parents, edges: seq<Edge>, e: Edge, ra: Account, rb: Account)
    requires Represents(parent, edges) && SameReps(parent, q) && ra == Rep(q, e.a) && rb == Rep(q, e.b)
    requires e.a in q && e.b in q && forall x | x in parent :: x in q
    requires
      var r := if ra != rb then q[ra := rb] else q;
      Valid(r) && forall x :: Rep(r, x) == if Rep(q, x) == ra then rb else Rep(q, x)
    ensures Represents(if ra != rb then q[ra := rb] else q, edges + [e])
  {
    var r := if ra != rb then q[ra := rb] else q;
    hide Connected, Valid, Rep;
    forall x, y ensures Rep(r, x) == Rep(r, y) <==> Connected(edges + [e], x, y) {
      JoinIsConnected(edges, e, x, y);
      var rx, ry := Rep(parent, x), Rep(parent, y);
      assert Connected(edges, x, e.a) <==> rx == ra;
      assert Connected(edges, x, e.b) <==> rx == rb;
      assert Connected(edges, e.a, y) <==> ra == ry;
      assert Connected(edges, e.b, y) <==> rb == ry;
    }
  }

  // ---------- the clusters ----------

  /** The edges of the component of `x`, in the order they were found. */
  ghost function ComponentOf(all: seq<Edge>, edges: seq<Edge>, x: Account): seq<Edge> {
    if edges == [] then []
    else
      var n := |edges| - 1;
      ComponentOf(all, edges[..n], x) + if Connected(all, edges[n].a, x) then [edges[n]] else []
  }

  lemma {:induction false} ComponentHas(all: seq<Edge>, edges: seq<Edge>, x: Account, e: Edge)
    ensures e in ComponentOf(all, edges, x) <==> e in edges && Connected(all, e.a, x)
    decreases |edges|
  {
    if edges != [] {
      assert edges == edges[..|edges| - 1] + [edges[|edges| - 1]];
      ComponentHas(all, edges[..|edges| - 1], x, e);
    }
  }

  /** `groups` holds the components of `seen`, each under its own root. */
  ghost predicate Grouped(parent: Parents, all: seq<Edge>, seen: seq<Edge>, groups: map<Account, seq<Edge>>) {
    && (forall root | root in groups :: Rep(parent, root) == root && groups[root] == ComponentOf(all, seen, root))
    && (forall e | e in seen :: Rep(parent, e.a) in groups)
  }

  lemma NoneBefore(parent: Parents, all: seq<Edge>, seen: seq<Edge>, groups: map<Account, seq<Edge>>, root: Account)
    requires Represents(parent, all) && Grouped(parent, all, seen, groups) && Rep(parent, root) == root
    requires root !in groups
    ensures ComponentOf(all, seen, root) == []
  {
    var c := ComponentOf(all, seen, root);
    if c != [] {
      ComponentHas(all, seen, root, c[0]);
    }
  }

  /** The accounts of a cluster. */
  ghost predicate Member(cluster: seq<Edge>, x: Account) {
    exists e :: e in cluster && (e.a == x || e.b == x)
  }

  /** Nothing but whole components, each listed once. */
  ghost predicate ClustersOf(edges: seq<Edge>, clusters: seq<seq<Edge>>) {
    && (forall c | c in clusters :: c != [] && exists root :: c == ComponentOf(edges, edges, root))
    && (forall e | e in edges :: exists c :: c in clusters && e in c)
    && (forall i, j | 0 <= i < j < |clusters| ::
          forall e, f | e in clusters[i] && f in clusters[j] :: !Connected(edges, e.a, f.a))
  }

  method AltClusters(edges: seq<Edge>) returns (clusters: seq<seq<Edge>>)
    ensures ClustersOf(edges, clusters)
  {
    var parent: Parents := map[];
    NoEdges();
    for i := 0 to |edges|
      invariant Represents(parent, edges[..i])
    {
      TakeOneMore(edges, i);
      parent := Union(parent, edges[i], edges[..i]);
    }
    assert edges[..|edges|] == edges;
    var groups, order;
    groups, order, parent := Group(edges, parent);
    clusters := [];
    for i := 0 to |order|
      invariant |clusters| == i && forall j | 0 <= j < i :: order[j] in groups && clusters[j] == groups[order[j]]
    {
      assert order[i] in order;
      clusters := clusters + [groups[order[i]]];
    }
    GroupsAreClusters(edges, parent, groups, order, clusters);
  }

  lemma GroupsAreClusters(edges: seq<Edge>, parent: Parents, groups: map<Account, seq<Edge>>, order: seq<Account>,
                          clusters: seq<seq<Edge>>)
    requires Represents(parent, edges) && Grouped(parent, edges, edges, groups)
    requires Listed(groups, order) && |clusters| == |order|
    requires forall i | 0 <= i < |order| :: order[i] in groups && clusters[i] == groups[order[i]]
    ensures ClustersOf(edges, clusters)
  {
    forall c | c in clusters ensures c != [] && exists root :: c == ComponentOf(edges, edges, root) {
      var i :| 0 <= i < |clusters| && c == clusters[i];
      assert c == ComponentOf(edges, edges, order[i]);
    }
    forall e | e in edges ensures exists c :: c in clusters && e in c {
      var root := Rep(parent, e.a);
      var i :| 0 <= i < |order| && order[i] == root;
      ComponentHas(edges, edges, root, e);
      RootOfRoot(parent, e.a);
      assert clusters[i] in clusters;
    }
    forall i, j, e, f | 0 <= i < j < |clusters| && e in clusters[i] && f in clusters[j]
      ensures !Connected(edges, e.a, f.a)
    {
      ComponentHas(edges, edges, order[i], e);
      ComponentHas(edges, edges, order[j], f);
    }
  }

  /** Two accounts that some edge names share a cluster exactly when a chain of edges links them. */
  lemma ShareAClusterIffLinked(edges: seq<Edge>, clusters: seq<seq<Edge>>, x: Account, y: Account)
    requires ClustersOf(edges, clusters)
    requires Member(edges, x) && Member(edges, y)
    ensures (exists c :: c in clusters && Member(c, x) && Member(c, y)) <==> Connected(edges, x, y)
  {
    var ex :| ex in edges && (ex.a == x || ex.b == x);
    var ey :| ey in edges && (ey.a == y || ey.b == y);
    if Connected(edges, x, y) {
      var c :| c in clusters && ex in c;
      var root :| c == ComponentOf(edges, edges, root);
      ComponentHas(edges, edges, root, ex);
      ComponentHas(edges, edges, root, ey);
      EndIsConnected(edges, ex, x);
      EndIsConnected(edges, ey, y);
      ConnectedBack(edges, ex.a, x);
      ConnectedBack(edges, x, y);
      ConnectedThrough(edges, ey.a, y, x);
      ConnectedThrough(edges, ey.a, x, ex.a);
      ConnectedThrough(edges, ey.a, ex.a, root);
      assert Member(c, x) && Member(c, y);
    }
    if c :| c in clusters && Member(c, x) && Member(c, y) {
      var root :| c == ComponentOf(edges, edges, root);
      MemberIsConnected(edges, root, x);
      MemberIsConnected(edges, root, y);
      ConnectedBack(edges, y, root);
      ConnectedThrough(edges, x, root, y);
    }
  }

  lemma EndIsConnected(edges: seq<Edge>, e: Edge, x: Account)
    requires e in edges && (e.a == x || e.b == x)
    ensures Connected(edges, e.a, x)
  {
    ConnectedToItself(edges, x);
    assert Tied(edges, e.a, e.b);
    TiedIsConnected(edges, e.a, e.b);
  }

  lemma MemberIsConnected(edges: seq<Edge>, root: Account, x: Account)
    requires Member(ComponentOf(edges, edges, root), x)
    ensures Connected(edges, x, root)
  {
    var e :| e in ComponentOf(edges, edges, root) && (e.a == x || e.b == x);
    ComponentHas(edges, edges, root, e);
    EndIsConnected(edges, e, x);
    ConnectedBack(edges, e.a, x);
    ConnectedThrough(edges, x, e.a, root);
  }

  lemma RootOfRoot(parent: Parents, x: Account)
    requires Valid(parent)
    ensures Rep(parent, Rep(parent, x)) == Rep(parent, x)
  {
    EndsAt(Links(parent), x);
    RootNotKey(Links(parent), x);
    RootOfEnd(Links(parent), Rep(parent, x));
  }

  lemma NoEdges()
    ensures Represents(map[], [])
  {
    var none: Parents := map[];
    assert Links(none) == map[];
    forall x: Account ensures Ends(Links(none), x) && Root(Links(none), x) == x { RootOfEnd(Links(none), x); }
    forall x, y ensures Rep(none, x) == Rep(none, y) <==> Connected([], x, y) {
      ConnectedToItself([], x);
      if Connected([], x, y) {
        var p :| ChainBetween([], p, x, y);
        assert |p| > 1 ==> Tied([], p[0], p[0 + 1]);
      }
    }
  }

  /** `order` lists the keys of `groups` once each: a Map keeps the order its keys came in. */
  ghost predicate Listed(groups: map<Account, seq<Edge>>, order: seq<Account>) {
    && (forall root :: root in groups <==> root in order)
    && (forall i, j | 0 <= i < j < |order| :: order[i] != order[j])
    && (forall root | root in groups :: groups[root] != [])
  }

  /** The second loop: each edge goes to the group of its first account's root. */
  method Group(edges: seq<Edge>, parent: Parents)
    returns (groups: map<Account, seq<Edge>>, order: seq<Account>, parent': Parents)
    requires Represents(parent, edges)
    ensures Represents(parent', edges) && Grouped(parent', edges, edges, groups) && Listed(groups, order)
  {
    groups, order, parent' := map[], [], parent;
    for i := 0 to |edges|
      invariant Represents(parent', edges) && Grouped(parent', edges, edges[..i], groups) && Listed(groups, order)
    {
      TakeOneMore(edges, i);
      groups, order, parent' := GroupOne(parent', edges, edges[..i], edges[i], groups, order);
    }
    assert edges[..|edges|] == edges;
  }

  method GroupOne(parent: Parents, ghost all: seq<Edge>, ghost seen: seq<Edge>, e: Edge,
                  groups: map<Account, seq<Edge>>, order: seq<Account>)
    returns (groups': map<Account, seq<Edge>>, order': seq<Account>, parent': Parents)
    requires Represents(parent, all) && e in all
    requires Grouped(parent, all, seen, groups) && Listed(groups, order)
    ensures Represents(parent', all) && Grouped(parent', all, seen + [e], groups') && Listed(groups', order')
  {
    hide ComponentOf, Connected;
    var root;
    root, parent' := Find(parent, e.a);
    groups' := groups[root := (if root in groups then groups[root] else []) + [e]];
    order' := if root in groups then order else order + [root];
    RepresentsKept(parent, parent', all);
    GroupBefore(parent, all, seen, groups, root);
    GroupStep(parent, parent', all, seen, e, groups, groups', root);
    StillListed(groups, order, root, groups'[root]);
  }

  lemma GroupBefore(parent: Parents, all: seq<Edge>, seen: seq<Edge>, groups: map<Account, seq<Edge>>, root: Account)
    requires Represents(parent, all) && Grouped(parent, all, seen, groups) && Rep(parent, root) == root
    ensures (if root in groups then groups[root] else []) == ComponentOf(all, seen, root)
  {
    if root !in groups { NoneBefore(parent, all, seen, groups, root); }
  }

  lemma StillListed(groups: map<Account, seq<Edge>>, order: seq<Account>, root: Account, group: seq<Edge>)
    requires Listed(groups, order) && group != []
    ensures Listed(groups[root := group], if root in groups then order else order + [root])
  {
  }

  lemma RepresentsKept(p: Parents, q: Parents, edges: seq<Edge>)
    requires Represents(p, edges) && Valid(q) && SameReps(p, q) && forall x | x in p :: x in q
    ensures Represents(q, edges)
  {
  }

  lemma GroupStep(p: Parents, q: Parents, all: seq<Edge>, seen: seq<Edge>, e: Edge,
                  groups: map<Account, seq<Edge>>, groups': map<Account, seq<Edge>>, root: Account)
    requires Represents(p, all) && SameReps(p, q)
    requires Grouped(p, all, seen, groups) && root == Rep(p, e.a) && Rep(p, root) == root
    requires groups' == groups[root := ComponentOf(all, seen, root) + [e]]
    ensures Grouped(q, all, seen + [e], groups')
  {
    hide Valid, Rep, Connected;
    assert (seen + [e])[..|seen|] == seen;
    assert Connected(all, e.a, root);
    forall r | r in groups' ensures Rep(q, r) == r && groups'[r] == ComponentOf(all, seen + [e], r) {
      assert Connected(all, e.a, r) <==> Rep(p, e.a) == Rep(p, r);
    }
  }
}
