/**
 Points of a campaign for one player (rankPoints and ignoredKeep in src/ballot.ts),
 in exact arithmetic.
 */
module BallotPoints {
  import opened Seqs
  import opened Sorting

  type Slug = string

  datatype Played = Played(matchId: int, campaign: Slug)
  datatype Shown = Shown(matchId: int, options: seq<Slug>, votes: map<Slug, int>)

  /** One lobby player's completed matches and tallied ballots, newest first. */
  datatype History = History(played: seq<Played>, ballots: seq<Shown>)

  /** 4, 3, 2 and then nothing. */
  function RankPoint(k: int): real {
    if k == 0 then 4.0 else if k == 1 then 3.0 else if k == 2 then 2.0 else 0.0
  }

  /** Matches since `slug` was last played. Never played is longer than any: the source's Infinity. */
  function Since(played: seq<Played>, slug: Slug): (n: nat)
    ensures n <= |played|
    ensures n < |played| ==> played[n].campaign == slug
    ensures forall i | 0 <= i < n :: played[i].campaign != slug
  {
    if played == [] then 0
    else if played[0].campaign == slug then 0
    else 1 + Since(played[1..], slug)
  }

  // ---------- what a campaign should get ----------

  /** How many of `slugs` were played longer than `n` matches ago. */
  ghost function Longer(played: seq<Played>, slugs: seq<Slug>, n: nat): nat {
    if slugs == [] then 0
    else Longer(played, slugs[..|slugs| - 1], n) + if Since(played, slugs[|slugs| - 1]) > n then 1 else 0
  }

  ghost function Tied(played: seq<Played>, slugs: seq<Slug>, n: nat): nat {
    if slugs == [] then 0
    else Tied(played, slugs[..|slugs| - 1], n) + if Since(played, slugs[|slugs| - 1]) == n then 1 else 0
  }

  /** The rank points of the places from `i` up to, not including, `j`. */
  ghost function RankSum(i: int, j: int): real
    decreases j - i
  {
    if j <= i then 0.0 else RankSum(i, j - 1) + RankPoint(j - 1)
  }

  /** Those played longer ago take the places before; the tied share theirs evenly. */
  ghost function Points(played: seq<Played>, slugs: seq<Slug>, slug: Slug): real {
    var i, m := Longer(played, slugs, Since(played, slug)), Tied(played, slugs, Since(played, slug));
    if m == 0 then 0.0 else RankSum(i, i + m) / m as real
  }

  // ---------- counting does not see the order ----------

  lemma {:induction false} CountsOfMore(played: seq<Played>, a: seq<Slug>, b: seq<Slug>, n: nat)
    ensures Longer(played, a + b, n) == Longer(played, a, n) + Longer(played, b, n)
    ensures Tied(played, a + b, n) == Tied(played, a, n) + Tied(played, b, n)
    decreases |b|
  {
    if b == [] {
      assert a + b == a;
    } else {
      assert (a + b)[..|a + b| - 1] == a + b[..|b| - 1];
      CountsOfMore(played, a, b[..|b| - 1], n);
    }
  }

  lemma {:induction false} CountsIgnoreOrder(played: seq<Played>, a: seq<Slug>, b: seq<Slug>, n: nat)
    requires multiset(a) == multiset(b)
    ensures Longer(played, a, n) == Longer(played, b, n) && Tied(played, a, n) == Tied(played, b, n)
    decreases |a|
  {
    if a != [] {
      var i := TakeOut(a, b);
      var m, x := |a| - 1, a[|a| - 1];
      assert a == a[..m] + [x];
      CountsIgnoreOrder(played, a[..m], b[..i] + b[i + 1..], n);
      CountsOfMore(played, b[..i], b[i + 1..], n);
      CountsOfMore(played, b[..i] + [x], b[i + 1..], n);
      CountsOfMore(played, b[..i], [x], n);
      CountsOfMore(played, a[..m], [x], n);
    }
  }

  /** The result does not depend on the order the campaigns are given in. */
  lemma PointsIgnoreOrder(played: seq<Played>, slugs: seq<Slug>, other: seq<Slug>, slug: Slug)
    requires multiset(slugs) == multiset(other)
    ensures Points(played, slugs, slug) == Points(played, other, slug)
  {
    CountsIgnoreOrder(played, slugs, other, Since(played, slug));
  }

  // ---------- longer ago never gets fewer ----------

  lemma {:induction false} LongerThanEarlier(played: seq<Played>, slugs: seq<Slug>, n: nat, m: nat)
    requires m < n
    ensures Longer(played, slugs, n) + Tied(played, slugs, n) <= Longer(played, slugs, m)
    decreases |slugs|
  {
    if slugs != [] { LongerThanEarlier(played, slugs[..|slugs| - 1], n, m); }
  }

  /** The mean of some places lies between the points of the first and the last of them. */
  lemma {:induction false} MeanBetween(i: nat, j: nat)
    requires i < j
    ensures RankPoint(j - 1) * (j - i) as real <= RankSum(i, j) <= RankPoint(i) * (j - i) as real
    decreases j - i
  {
    if i + 1 < j {
      MeanBetween(i, j - 1);
      var m := (j - 1 - i) as real;
      Scale(RankPoint(j - 1), RankPoint(j - 2), m);
      assert RankPoint(j - 1) * (m + 1.0) == RankPoint(j - 1) * m + RankPoint(j - 1);
      assert RankPoint(i) * (m + 1.0) == RankPoint(i) * m + RankPoint(i);
    } else {
      assert RankSum(i, j) == RankSum(i, i) + RankPoint(i);
    }
  }

  lemma Scale(a: real, b: real, m: real)
    requires a <= b && 0.0 <= m
    ensures a * m <= b * m
  {
    assert (b - a) * m >= 0.0;
  }

  /** The mean itself, for places `i` up to `i + m`. */
  lemma MeanIsBetween(i: nat, m: nat)
    requires m > 0
    ensures RankPoint(i + m - 1) <= RankSum(i, i + m) / m as real <= RankPoint(i)
  {
    MeanBetween(i, i + m);
    Quotient(RankSum(i, i + m), RankPoint(i + m - 1), RankPoint(i), m as real);
  }

  lemma Quotient(s: real, lo: real, hi: real, m: real)
    requires m > 0.0 && lo * m <= s <= hi * m
    ensures lo <= s / m <= hi
  {
  }

  lemma PointsAre(played: seq<Played>, slugs: seq<Slug>, slug: Slug)
    requires slug in slugs
    ensures
      var i, m := Longer(played, slugs, Since(played, slug)), Tied(played, slugs, Since(played, slug));
      m > 0 && Points(played, slugs, slug) == RankSum(i, i + m) / m as real
  {
    TiedWithItself(played, slugs, slug);
  }

  lemma LongerUnplayedNeverGetsFewer(played: seq<Played>, slugs: seq<Slug>, s: Slug, t: Slug)
    requires s in slugs && t in slugs
    requires Since(played, s) >= Since(played, t)
    ensures Points(played, slugs, s) >= Points(played, slugs, t)
  {
    hide *;
    var n, m := Since(played, s), Since(played, t);
    PointsAre(played, slugs, s);
    PointsAre(played, slugs, t);
    if m < n {
      LongerThanEarlier(played, slugs, n, m);
      EarlierMeanIsLarger(Longer(played, slugs, n), Tied(played, slugs, n), Longer(played, slugs, m),
                          Tied(played, slugs, m));
    }
  }

  lemma EarlierMeanIsLarger(i: nat, a: nat, j: nat, b: nat)
    requires a > 0 && b > 0 && i + a <= j
    ensures RankSum(i, i + a) / a as real >= RankSum(j, j + b) / b as real
  {
    hide RankSum;
    MeanIsBetween(i, a);
    MeanIsBetween(j, b);
    assert RankPoint(j) <= RankPoint(i + a - 1);
  }

  lemma {:induction false} TiedWithItself(played: seq<Played>, slugs: seq<Slug>, s: Slug)
    requires s in slugs
    ensures Tied(played, slugs, Since(played, s)) > 0
    decreases |slugs|
  {
    var m := |slugs| - 1;
    if slugs[m] != s {
      assert slugs == slugs[..m] + [slugs[m]];
      TiedWithItself(played, slugs[..m], s);
    }
  }

  // ---------- rankPoints ----------

  /** Longest ago first. */
  ghost predicate OldestFirst(played: seq<Played>, s: seq<Slug>) {
    forall i, j | 0 <= i < j < |s| :: Since(played, s[i]) >= Since(played, s[j])
  }

  function SortByLongest(played: seq<Played>, slugs: seq<Slug>): seq<Slug> {
    Sort(slugs, (slug: Slug) => Since(played, slug) as real)
  }

  lemma SortByLongestSorts(played: seq<Played>, slugs: seq<Slug>)
    ensures multiset(SortByLongest(played, slugs)) == multiset(slugs)
    ensures OldestFirst(played, SortByLongest(played, slugs))
  {
    var key := (slug: Slug) => Since(played, slug) as real;
    SortSorts(slugs, key);
    var s := Sort(slugs, key);
    forall i, j | 0 <= i < j < |s| ensures Since(played, s[i]) >= Since(played, s[j]) { assert key(s[i]) >= key(s[j]); }
  }

  /** Places `i` up to `j` hold one age; places before hold longer ones, places after shorter ones. */
  ghost predicate Block(played: seq<Played>, s: seq<Slug>, i: nat, j: nat) {
    && i < j <= |s|
    && (forall k | 0 <= k < i :: Since(played, s[k]) > Since(played, s[i]))
    && (forall k | i <= k < j :: Since(played, s[k]) == Since(played, s[i]))
    && (forall k | j <= k < |s| :: Since(played, s[k]) < Since(played, s[i]))
  }

  lemma {:induction false} CountsAbove(played: seq<Played>, s: seq<Slug>, n: nat)
    requires forall k | 0 <= k < |s| :: Since(played, s[k]) > n
    ensures Longer(played, s, n) == |s| && Tied(played, s, n) == 0
    decreases |s|
  {
    if s != [] { CountsAbove(played, s[..|s| - 1], n); }
  }

  lemma {:induction false} CountsAt(played: seq<Played>, s: seq<Slug>, n: nat)
    requires forall k | 0 <= k < |s| :: Since(played, s[k]) == n
    ensures Longer(played, s, n) == 0 && Tied(played, s, n) == |s|
    decreases |s|
  {
    if s != [] { CountsAt(played, s[..|s| - 1], n); }
  }

  lemma {:induction false} CountsBelow(played: seq<Played>, s: seq<Slug>, n: nat)
    requires forall k | 0 <= k < |s| :: Since(played, s[k]) < n
    ensures Longer(played, s, n) == 0 && Tied(played, s, n) == 0
    decreases |s|
  {
    if s != [] { CountsBelow(played, s[..|s| - 1], n); }
  }

  lemma BlockCounts(played: seq<Played>, s: seq<Slug>, i: nat, j: nat)
    requires Block(played, s, i, j)
    ensures Longer(played, s, Since(played, s[i])) == i && Tied(played, s, Since(played, s[i])) == j - i
  {
    var n := Since(played, s[i]);
    var a, b, c := s[..i], s[i..j], s[j..];
    assert s == a + b + c;
    BlockParts(played, s, i, j);
    hide *;
    CountsAbove(played, a, n);
    CountsAt(played, b, n);
    CountsBelow(played, c, n);
    CountsOfMore(played, a + b, c, n);
    CountsOfMore(played, a, b, n);
  }

  lemma BlockParts(played: seq<Played>, s: seq<Slug>, i: nat, j: nat)
    requires Block(played, s, i, j)
    ensures forall k | 0 <= k < |s[..i]| :: Since(played, s[..i][k]) > Since(played, s[i])
    ensures forall k | 0 <= k < |s[i..j]| :: Since(played, s[i..j][k]) == Since(played, s[i])
    ensures forall k | 0 <= k < |s[j..]| :: Since(played, s[j..][k]) < Since(played, s[i])
  {
    hide Since;
  }

  /** A block of the sorted list shares the points of its places. */
  lemma BlockPoints(played: seq<Played>, slugs: seq<Slug>, s: seq<Slug>, i: nat, j: nat)
    requires multiset(s) == multiset(slugs) && Block(played, s, i, j)
    ensures forall k | i <= k < j :: Points(played, slugs, s[k]) == RankSum(i, j) / (j - i) as real
  {
    BlockCounts(played, s, i, j);
    forall k | i <= k < j ensures Points(played, slugs, s[k]) == RankSum(i, j) / (j - i) as real {
      CountsIgnoreOrder(played, s, slugs, Since(played, s[k]));
    }
  }

  /** Places from `i` on were played more recently than those before. */
  ghost predicate BlockStart(played: seq<Played>, s: seq<Slug>, i: nat) {
    i <= |s| && (0 < i < |s| ==> Since(played, s[i - 1]) > Since(played, s[i]))
  }

  /** The end of the block that starts at `i`. */
  method BlockEnd(played: seq<Played>, s: seq<Slug>, i: nat) returns (j: nat)
    requires OldestFirst(played, s) && BlockStart(played, s, i) && i < |s|
    ensures Block(played, s, i, j) && BlockStart(played, s, j)
  {
    j := i;
    while j < |s| && Since(played, s[j]) == Since(played, s[i])
      invariant i <= j <= |s|
      invariant forall k | i <= k < j :: Since(played, s[k]) == Since(played, s[i])
      decreases |s| - j
    {
      j := j + 1;
    }
  }

  /** What `out` holds once the first `i` places have their points. */
  ghost predicate SharedOut(out: map<Slug, real>, played: seq<Played>, slugs: seq<Slug>, s: seq<Slug>, i: nat) {
    && i <= |s|
    && (forall k | 0 <= k < i :: s[k] in out)
    && forall slug | slug in out :: slug in slugs && out[slug] == Points(played, slugs, slug)
  }

  method RankPoints(h: History, slugs: seq<Slug>) returns (out: map<Slug, real>)
    ensures forall s :: s in out <==> s in slugs
    ensures forall s | s in slugs :: out[s] == Points(h.played, slugs, s)
  {
    var sorted := SortByLongest(h.played, slugs);
    SortByLongestSorts(h.played, slugs);
    out := map[];
    var i := 0;
    while i < |sorted|
      invariant SharedOut(out, h.played, slugs, sorted, i) && BlockStart(h.played, sorted, i)
    {
      var j := BlockEnd(h.played, sorted, i);
      BlockPoints(h.played, slugs, sorted, i, j);
      var sum := SumPlaces(i, j);
      out := ShareOut(h.played, slugs, sorted, i, j, sum, out);
      i := j;
    }
    forall s ensures s in out <==> s in slugs {
      if s in slugs {
        assert s in multiset(sorted);
        var k :| 0 <= k < |sorted| && sorted[k] == s;
      }
    }
  }

  method SumPlaces(i: nat, j: nat) returns (sum: real)
    requires i <= j
    ensures sum == RankSum(i, j)
  {
    sum := 0.0;
    for k := i to j
      invariant sum == RankSum(i, k)
    {
      sum := sum + RankPoint(k);
    }
  }

  method ShareOut(ghost played: seq<Played>, ghost slugs: seq<Slug>, s: seq<Slug>, i: nat, j: nat, sum: real,
                  out: map<Slug, real>)
    returns (out': map<Slug, real>)
    requires i < j <= |s| && multiset(s) == multiset(slugs)
    requires forall k | i <= k < j :: Points(played, slugs, s[k]) == sum / (j - i) as real
    requires SharedOut(out, played, slugs, s, i)
    ensures SharedOut(out', played, slugs, s, j)
  {
    hide Points;
    out' := out;
    for k := i to j
      invariant SharedOut(out', played, slugs, s, k)
    {
      assert s[k] in multiset(slugs);
      out' := out'[s[k] := sum / (j - i) as real];
    }
  }

  // ---------- the total handed out ----------

  ghost function Total(played: seq<Played>, slugs: seq<Slug>, s: seq<Slug>): real {
    if s == [] then 0.0 else Total(played, slugs, s[..|s| - 1]) + Points(played, slugs, s[|s| - 1])
  }

  lemma {:induction false} TotalOfMore(played: seq<Played>, slugs: seq<Slug>, a: seq<Slug>, b: seq<Slug>)
    ensures Total(played, slugs, a + b) == Total(played, slugs, a) + Total(played, slugs, b)
    decreases |b|
  {
    if b == [] {
      assert a + b == a;
    } else {
      assert (a + b)[..|a + b| - 1] == a + b[..|b| - 1];
      TotalOfMore(played, slugs, a, b[..|b| - 1]);
    }
  }

  lemma {:induction false} TotalIgnoresOrder(played: seq<Played>, slugs: seq<Slug>, a: seq<Slug>, b: seq<Slug>)
    requires multiset(a) == multiset(b)
    ensures Total(played, slugs, a) == Total(played, slugs, b)
    decreases |a|
  {
    if a != [] {
      var i := TakeOut(a, b);
      var m, x := |a| - 1, a[|a| - 1];
      assert a == a[..m] + [x];
      TotalIgnoresOrder(played, slugs, a[..m], b[..i] + b[i + 1..]);
      TotalOfMore(played, slugs, b[..i], b[i + 1..]);
      TotalOfMore(played, slugs, b[..i] + [x], b[i + 1..]);
      TotalOfMore(played, slugs, b[..i], [x]);
      TotalOfMore(played, slugs, a[..m], [x]);
    } else {
      assert b == [] by { assert |multiset(b)| == |b|; }
    }
  }

  ghost function Times(n: nat, x: real): real {
    if n == 0 then 0.0 else Times(n - 1, x) + x
  }

  lemma {:induction false} TimesIsProduct(n: nat, x: real)
    ensures Times(n, x) == n as real * x
    decreases n
  {
    if n > 0 {
      TimesIsProduct(n - 1, x);
      assert (n - 1) as real * x + x == ((n - 1) as real + 1.0) * x;
    }
  }

  lemma SharesMakeWhole(n: nat, x: real)
    requires n > 0
    ensures Times(n, x / n as real) == x
  {
    TimesIsProduct(n, x / n as real);
  }

  lemma {:induction false} TotalOfEqual(played: seq<Played>, slugs: seq<Slug>, s: seq<Slug>, each: real)
    requires forall k | 0 <= k < |s| :: Points(played, slugs, s[k]) == each
    ensures Total(played, slugs, s) == Times(|s|, each)
    decreases |s|
  {
    hide Points;
    if s != [] { TotalOfEqual(played, slugs, s[..|s| - 1], each); }
  }

  lemma {:induction false} RankSumSplits(i: nat, j: nat, k: nat)
    requires i <= j <= k
    ensures RankSum(i, j) + RankSum(j, k) == RankSum(i, k)
    decreases k
  {
    if j < k { RankSumSplits(i, j, k - 1); }
  }

  lemma BlockInside(played: seq<Played>, s: seq<Slug>, i: nat, j: nat)
    requires Block(played, s, i, j)
    ensures i < j <= |s|
  {
  }

  lemma BlockTotal(played: seq<Played>, slugs: seq<Slug>, s: seq<Slug>, i: nat, j: nat)
    requires multiset(s) == multiset(slugs) && Block(played, s, i, j)
    ensures Total(played, slugs, s[..j]) == Total(played, slugs, s[..i]) + RankSum(i, j)
  {
    hide *;
    BlockInside(played, s, i, j);
    BlockPoints(played, slugs, s, i, j);
    TotalOfEqual(played, slugs, s[i..j], RankSum(i, j) / (j - i) as real);
    assert s[..j] == s[..i] + s[i..j];
    TotalOfMore(played, slugs, s[..i], s[i..j]);
    SharesMakeWhole(j - i, RankSum(i, j));
  }

  /** Places `0` up to `i` were handed exactly their rank points. */
  lemma {:induction false} BlocksTotal(played: seq<Played>, slugs: seq<Slug>, s: seq<Slug>, i: nat)
    requires multiset(s) == multiset(slugs) && OldestFirst(played, s)
    requires BlockStart(played, s, i) && Total(played, slugs, s[..i]) == RankSum(0, i)
    ensures Total(played, slugs, s) == RankSum(0, |s|)
    decreases |s| - i
  {
    if i == |s| {
      assert s[..i] == s;
    } else {
      hide Points, OldestFirst, BlockStart;
      var j: nat := i + Tied(played, s, Since(played, s[i]));
      NextBlock(played, s, i);
      BlockTotal(played, slugs, s, i, j);
      RankSumSplits(0, i, j);
      BlocksTotal(played, slugs, s, j);
    }
  }

  lemma {:induction false} BlockFrom(played: seq<Played>, s: seq<Slug>, i: nat, j: nat) returns (end: nat)
    requires OldestFirst(played, s) && BlockStart(played, s, i) && i < j <= |s|
    requires forall k | i <= k < j :: Since(played, s[k]) == Since(played, s[i])
    ensures Block(played, s, i, end) && BlockStart(played, s, end)
    decreases |s| - j
  {
    if j < |s| && Since(played, s[j]) == Since(played, s[i]) {
      end := BlockFrom(played, s, i, j + 1);
    } else {
      end := j;
    }
  }

  lemma NextBlock(played: seq<Played>, s: seq<Slug>, i: nat)
    requires OldestFirst(played, s) && BlockStart(played, s, i) && i < |s|
    ensures
      var j := i + Tied(played, s, Since(played, s[i]));
      Block(played, s, i, j) && BlockStart(played, s, j)
  {
    var j := BlockFrom(played, s, i, i + 1);
    BlockCounts(played, s, i, j);
  }

  /** A player hands out exactly the points of the first three places, or of all there are. */
  lemma PointsHandedOut(played: seq<Played>, slugs: seq<Slug>)
    ensures Total(played, slugs, slugs) ==
      if |slugs| == 0 then 0.0 else if |slugs| == 1 then 4.0 else if |slugs| == 2 then 7.0 else 9.0
  {
    var s := SortByLongest(played, slugs);
    SortByLongestSorts(played, slugs);
    assert Total(played, slugs, s[..0]) == RankSum(0, 0);
    BlocksTotal(played, slugs, s, 0);
    TotalIgnoresOrder(played, slugs, s, slugs);
    assert |s| == |slugs| by { assert |multiset(s)| == |s| && |multiset(slugs)| == |slugs|; }
    AllPlaces(|slugs|);
  }

  lemma {:induction false} AllPlaces(n: nat)
    ensures RankSum(0, n) == if n == 0 then 0.0 else if n == 1 then 4.0 else if n == 2 then 7.0 else 9.0
    decreases n
  {
    if n > 0 { AllPlaces(n - 1); }
  }
}
