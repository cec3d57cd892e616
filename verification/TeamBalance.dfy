/**
 The team balancer (src/balance.ts): every split of the players that keeps each
 duo together, and the first one nearest to even. The forecast is an arbitrary
 function of the two teams.
 */
module TeamBalance {
  import opened Wrappers
  import opened Seqs

  // ---------- what a choice of indices is ----------

  /** `k` strictly increasing indices from `start` up to, not including, `n`. */
  ghost predicate IsPick(p: seq<int>, start: int, n: int, k: nat) {
    && |p| == k
    && (forall i | 0 <= i < k :: start <= p[i] < n)
    && forall i, j | 0 <= i < j < k :: p[i] < p[j]
  }

  /** The order of two choices in a dictionary. */
  ghost predicate Before(p: seq<int>, q: seq<int>) {
    p != [] && q != [] && (p[0] < q[0] || (p[0] == q[0] && Before(p[1..], q[1..])))
  }

  ghost predicate Ascending(picks: seq<seq<int>>) {
    forall i, j | 0 <= i < j < |picks| :: Before(picks[i], picks[j])
  }

  /** `acc` followed by each of `tails`. */
  ghost function With(acc: seq<int>, tails: seq<seq<int>>): (r: seq<seq<int>>)
    ensures |r| == |tails| && forall i | 0 <= i < |r| :: r[i] == acc + tails[i]
  {
    seq(|tails|, i requires 0 <= i < |tails| => acc + tails[i])
  }

  /** Those that take `start` come first. */
  ghost function Picks(start: int, n: int, k: nat): seq<seq<int>>
    decreases n - start
  {
    if k == 0 then [[]]
    else if start >= n then []
    else With([start], Picks(start + 1, n, k - 1)) + Picks(start + 1, n, k)
  }

  lemma {:induction false} PicksAreAll(start: int, n: int, k: nat, p: seq<int>)
    ensures p in Picks(start, n, k) <==> IsPick(p, start, n, k)
    decreases n - start
  {
    PicksUnfold(start, n, k, p);
    hide *;
    if k > 0 && start < n {
      WithOneHas(start, Picks(start + 1, n, k - 1), p);
      PicksAreAll(start + 1, n, k, p);
      if p != [] {
        PicksAreAll(start + 1, n, k - 1, p[1..]);
        if p[0] == start { FirstOrRest(p, start, n, k); } else { NotFirst(p, start, n, k); }
      }
      if p == [] { SizeOfPick(p, start, n, k); }
      WiderPick(p, start, n, k);
    } else if k > 0 {
      NoRoom(p, start, n, k);
    } else {
      EmptyIsPick(p, start, n);
    }
  }

  lemma PicksUnfold(start: int, n: int, k: nat, p: seq<int>)
    ensures p in Picks(start, n, k) <==>
      if k == 0 then p == []
      else start < n && (p in With([start], Picks(start + 1, n, k - 1)) || p in Picks(start + 1, n, k))
  {
  }

  lemma NotFirst(p: seq<int>, start: int, n: int, k: nat)
    requires p != [] && p[0] != start && k > 0
    ensures IsPick(p, start, n, k) <==> IsPick(p, start + 1, n, k)
  {
    if IsPick(p, start, n, k) {
      forall i | 0 <= i < k ensures start + 1 <= p[i] { assert i > 0 ==> p[0] < p[i]; }
    }
  }

  lemma WiderPick(p: seq<int>, start: int, n: int, k: nat)
    ensures IsPick(p, start + 1, n, k) ==> IsPick(p, start, n, k)
  {
  }

  lemma SizeOfPick(p: seq<int>, start: int, n: int, k: nat)
    requires |p| != k
    ensures !IsPick(p, start, n, k) && !IsPick(p, start + 1, n, k)
  {
  }

  lemma NoRoom(p: seq<int>, start: int, n: int, k: nat)
    requires k > 0 && start >= n
    ensures !IsPick(p, start, n, k)
  {
    if p != [] && start <= p[0] < n {}
  }

  lemma EmptyIsPick(p: seq<int>, start: int, n: int)
    ensures IsPick(p, start, n, 0) <==> p == []
  {
  }

  lemma WithOneHas(start: int, tails: seq<seq<int>>, p: seq<int>)
    ensures p in With([start], tails) <==> p != [] && p[0] == start && p[1..] in tails
  {
    if p in With([start], tails) {
      var i :| 0 <= i < |tails| && With([start], tails)[i] == p;
      assert p[1..] == tails[i];
    }
    if p != [] && p[0] == start && p[1..] in tails {
      var i :| 0 <= i < |tails| && tails[i] == p[1..];
      assert With([start], tails)[i] == p;
    }
  }

  lemma FirstOrRest(p: seq<int>, start: int, n: int, k: nat)
    requires p != [] && p[0] == start && k > 0 && start < n
    ensures IsPick(p, start, n, k) <==> IsPick(p[1..], start + 1, n, k - 1)
  {
    if IsPick(p[1..], start + 1, n, k - 1) {
      forall i | 0 <= i < k ensures start <= p[i] < n && (i > 0 ==> start < p[i]) {
        if i > 0 { assert p[i] == p[1..][i - 1]; }
      }
      forall i, j | 0 <= i < j < k ensures p[i] < p[j] {
        if i > 0 { assert p[i] == p[1..][i - 1] && p[j] == p[1..][j - 1]; }
      }
    }
  }

  lemma {:induction false} PicksAscend(start: int, n: int, k: nat)
    ensures Ascending(Picks(start, n, k))
    decreases n - start
  {
    if k > 0 && start < n {
      PicksAscend(start + 1, n, k - 1);
      PicksAscend(start + 1, n, k);
      var tails, later := Picks(start + 1, n, k - 1), Picks(start + 1, n, k);
      var first := With([start], tails);
      forall i, j | 0 <= i < j < |first + later| ensures Before((first + later)[i], (first + later)[j]) {
        var p, q := (first + later)[i], (first + later)[j];
        if j < |first| {
          assert p[1..] == tails[i] && q[1..] == tails[j];
        } else if i < |first| {
          assert q in later;
          PicksAreAll(start + 1, n, k, q);
        }
      }
    }
  }

  lemma {:induction false} BeforeIsStrict(p: seq<int>, q: seq<int>)
    requires Before(p, q)
    ensures p != q
    decreases |p|
  {
    if p == q { BeforeIsStrict(p[1..], q[1..]); }
  }

  // ---------- combos ----------

  /** The recursion of `combos`, over one accumulator that it pushes to and pops from. */
  class Picker {
    const n: int
    const k: nat
    var acc: seq<int>
    var out: seq<seq<int>>

    constructor (n: int, k: nat)
      ensures this.n == n && this.k == k && acc == [] && out == []
    {
      this.n, this.k, acc, out := n, k, [], [];
    }

    method Pick(start: int)
      requires |acc| <= k && start <= n
      modifies this
      ensures acc == old(acc)
      ensures out == old(out) + With(acc, Picks(start, n, k - |acc|))
      decreases n - start
    {
      hide *;
      if |acc| == k {
        WithNothingMore(acc, start, n);
        out := out + [acc];
        return;
      }
      ghost var all := old(out) + With(acc, Picks(start, n, k - |acc|));
      var i := start;
      while i < n
        invariant start <= i <= n && acc == old(acc)
        invariant out + With(acc, Picks(i, n, k - |acc|)) == all
      {
        ghost var before := out;
        ghost var m: nat := k - |acc|;
        acc := acc + [i];
        Pick(i + 1);
        acc := acc[..|acc| - 1];
        assert acc == old(acc);
        PickStep(acc, before, out, i, n, m);
        i := i + 1;
      }
      NothingToPick(acc, n, k - |acc|);
    }
  }

  lemma WithNothingMore(acc: seq<int>, start: int, n: int)
    ensures With(acc, Picks(start, n, 0)) == [acc]
  {
    assert With(acc, [[]])[0] == acc;
  }

  lemma NothingToPick(acc: seq<int>, n: int, k: nat)
    requires k > 0
    ensures With(acc, Picks(n, n, k)) == []
  {
  }

  lemma PickStep(acc: seq<int>, before: seq<seq<int>>, after: seq<seq<int>>, i: int, n: int, m: nat)
    requires m > 0 && i < n
    requires after == before + With(acc + [i], Picks(i + 1, n, m - 1))
    ensures after + With(acc, Picks(i + 1, n, m)) == before + With(acc, Picks(i, n, m))
  {
    hide *;
    PicksFirst(i, n, m);
    WithTwice(acc, i, Picks(i + 1, n, m - 1), Picks(i + 1, n, m));
  }

  lemma PicksFirst(i: int, n: int, m: nat)
    requires m > 0 && i < n
    ensures Picks(i, n, m) == With([i], Picks(i + 1, n, m - 1)) + Picks(i + 1, n, m)
  {
  }

  lemma WithTwice(acc: seq<int>, i: int, tails: seq<seq<int>>, later: seq<seq<int>>)
    ensures With(acc, With([i], tails) + later) == With(acc + [i], tails) + With(acc, later)
  {
    assert forall j | 0 <= j < |tails| :: acc + ([i] + tails[j]) == (acc + [i]) + tails[j];
  }

  method Combos(n: int, k: nat) returns (out: seq<seq<int>>)
    requires n >= 1
    ensures forall p :: p in out <==> IsPick(p, 1, n, k)
    ensures Ascending(out)
    ensures out == Picks(1, n, k)
  {
    var picker := new Picker(n, k);
    picker.Pick(1);
    out := picker.out;
    assert out == Picks(1, n, k) by {
      forall i | 0 <= i < |out|
        ensures out[i] == Picks(1, n, k)[i]
      {
        assert [] + Picks(1, n, k)[i] == Picks(1, n, k)[i];
      }
    }
    forall p ensures p in out <==> IsPick(p, 1, n, k) { PicksAreAll(1, n, k, p); }
    PicksAscend(1, n, k);
  }

  // ---------- validSplits ----------

  datatype Player = Player(steamid: string, mu: real, sigma: real)
  datatype Split = Split(teamA: seq<string>, teamB: seq<string>, pWinA: real)
  datatype Error = WrongSize(n: nat) | NoSplitKeepsGroups

  type Duos = seq<(string, string)>
  type Forecast = (seq<Player>, seq<Player>) -> real

  /** A Map filled in order keeps the last index of a repeated id. */
  function IndexOf(players: seq<Player>, id: string): (r: Option<nat>)
    ensures r.Some? ==>
      r.value < |players| && players[r.value].steamid == id && forall i | r.value < i < |players| ::
                                                                 players[i].steamid != id
    ensures r.None? ==> forall i | 0 <= i < |players| :: players[i].steamid != id
  {
    if players == [] then None
    else if players[|players| - 1].steamid == id then Some(|players| - 1)
    else IndexOf(players[..|players| - 1], id)
  }

  predicate Separates(side: seq<int>, players: seq<Player>, duo: (string, string)) {
    var x, y := IndexOf(players, duo.0), IndexOf(players, duo.1);
    x.Some? && y.Some? && (x.value in side) != (y.value in side)
  }

  /** No duo whose two members are here is on two teams. */
  predicate KeepsGroups(side: seq<int>, players: seq<Player>, groups: Duos) {
    forall g | g in groups :: !Separates(side, players, g)
  }

  /** The indices of a team A: half the players, player 0 among them, every duo whole. */
  ghost predicate IsSide(side: seq<int>, players: seq<Player>, groups: Duos) {
    && IsPick(side, 0, |players|, |players| / 2)
    && side != [] && side[0] == 0
    && KeepsGroups(side, players, groups)
  }

  ghost function Sides(players: seq<Player>, groups: Duos, rests: seq<seq<int>>): seq<seq<int>> {
    if rests == [] then []
    else
      var m := |rests| - 1;
      var side := [0] + rests[m];
      Sides(players, groups, rests[..m]) + if KeepsGroups(side, players, groups) then [side] else []
  }

  ghost function AllSides(players: seq<Player>, groups: Duos): seq<seq<int>> {
    var half := |players| / 2;
    if half == 0 then [] else Sides(players, groups, Picks(1, |players|, half - 1))
  }

  function Others(side: seq<int>, n: nat): (r: seq<int>)
    ensures forall i :: i in r <==> 0 <= i < n && i !in side
    ensures forall i, j | 0 <= i < j < |r| :: r[i] < r[j]
  {
    if n == 0 then []
    else if n - 1 in side then Others(side, n - 1)
    else
      var below := Others(side, n - 1);
      assert forall i | 0 <= i < |below| :: below[i] in below;
      below + [n - 1]
  }

  predicate InRange(idx: seq<int>, players: seq<Player>) {
    forall i | i in idx :: 0 <= i < |players|
  }

  function Team(idx: seq<int>, players: seq<Player>): (r: seq<Player>)
    requires InRange(idx, players)
  {
    seq(|idx|, i requires 0 <= i < |idx| => assert idx[i] in idx; players[idx[i]])
  }

  function Ids(team: seq<Player>): seq<string> {
    seq(|team|, i requires 0 <= i < |team| => team[i].steamid)
  }

  function SplitOf(side: seq<int>, players: seq<Player>, predict: Forecast): Split
    requires InRange(side, players)
  {
    var a, b := Team(side, players), Team(Others(side, |players|), players);
    Split(Ids(a), Ids(b), predict(a, b))
  }

  ghost predicate SplitsOf(out: seq<Split>, sides: seq<seq<int>>, players: seq<Player>, predict: Forecast) {
    && |out| == |sides|
    && forall i | 0 <= i < |out| :: InRange(sides[i], players) && out[i] == SplitOf(sides[i], players, predict)
  }

  method ValidSplits(players: seq<Player>, groups: Duos, predict: Forecast) returns (r: Result<seq<Split>, Error>)
    ensures r.Err? <==> |players| !in {4, 6, 8}
    ensures r.Err? ==> r.error == WrongSize(|players|)
    ensures r.Ok? ==> SplitsOf(r.value, AllSides(players, groups), players, predict)
  {
    hide IsPick, Picks, SplitsOf, Ascending;
    var n := |players|;
    if n != 4 && n != 6 && n != 8 { return Err(WrongSize(n)); }
    var rests := Combos(n, n / 2 - 1);
    var out := SplitsFrom(rests, players, groups, predict);
    r := Ok(out);
  }

  method SplitsFrom(rests: seq<seq<int>>, players: seq<Player>, groups: Duos, predict: Forecast)
    returns (out: seq<Split>)
    requires |players| >= 2 && forall rest | rest in rests :: IsPick(rest, 1, |players|, |players| / 2 - 1)
    ensures SplitsOf(out, Sides(players, groups, rests), players, predict)
  {
    out := [];
    assert SplitsOf(out, Sides(players, groups, []), players, predict);
    assert rests[..0] == [] && rests[..|rests|] == rests;
    hide Sides, KeepsGroups, SplitsOf, IsPick;
    for i := 0 to |rests|
      invariant SplitsOf(out, Sides(players, groups, rests[..i]), players, predict)
    {
      var side := [0] + rests[i];
      assert rests[i] in rests;
      RestInRange(rests[i], players);
      OneMoreSide(players, groups, rests, i);
      if !KeepsGroups(side, players, groups) { continue; }
      OneMoreSplit(out, Sides(players, groups, rests[..i]), side, players, predict);
      out := out + [SplitOf(side, players, predict)];
    }
  }

  lemma RestInRange(rest: seq<int>, players: seq<Player>)
    requires |players| >= 2 && IsPick(rest, 1, |players|, |players| / 2 - 1)
    ensures InRange([0] + rest, players)
  {
  }

  lemma OneMoreSplit(out: seq<Split>, sides: seq<seq<int>>, side: seq<int>, players: seq<Player>, predict: Forecast)
    requires SplitsOf(out, sides, players, predict) && InRange(side, players)
    ensures SplitsOf(out + [SplitOf(side, players, predict)], sides + [side], players, predict)
  {
  }

  lemma OneMoreSide(players: seq<Player>, groups: Duos, rests: seq<seq<int>>, i: nat)
    requires i < |rests|
    ensures
      var side := [0] + rests[i];
      Sides(players, groups, rests[..i + 1]) == Sides(players, groups, rests[..i]) + if KeepsGroups(side, players,
                    groups) then [side] else []
  {
    assert rests[..i + 1][..i] == rests[..i];
  }

  lemma {:induction false} SidesHas(players: seq<Player>, groups: Duos, rests: seq<seq<int>>, side: seq<int>)
    ensures side in Sides(players, groups, rests) <==>
      side != [] && side[0] == 0 && side[1..] in rests && KeepsGroups(side, players, groups)
    decreases |rests|
  {
    if rests != [] {
      var m := |rests| - 1;
      SidesHas(players, groups, rests[..m], side);
      assert rests == rests[..m] + [rests[m]];
      assert ([0] + rests[m])[1..] == rests[m];
      if side != [] && side[0] == 0 { assert side == [0] + side[1..]; }
    }
  }

  lemma {:induction false} SidesAscend(players: seq<Player>, groups: Duos, rests: seq<seq<int>>)
    requires Ascending(rests)
    ensures Ascending(Sides(players, groups, rests))
    decreases |rests|
  {
    if rests != [] {
      var m := |rests| - 1;
      SidesAscend(players, groups, rests[..m]);
      var earlier := Sides(players, groups, rests[..m]);
      var side := [0] + rests[m];
      forall i | 0 <= i < |earlier| ensures Before(earlier[i], side) {
        SidesHas(players, groups, rests[..m], earlier[i]);
        assert earlier[i] in earlier;
        var j :| 0 <= j < m && rests[j] == earlier[i][1..];
        assert side[1..] == rests[m];
      }
    }
  }

  /** Every split that keeps all groups is listed exactly once, in dictionary order. */
  lemma AllSidesAreListedOnce(players: seq<Player>, groups: Duos, side: seq<int>)
    requires |players| >= 2
    ensures side in AllSides(players, groups) <==> IsSide(side, players, groups)
    ensures Ascending(AllSides(players, groups))
    ensures forall i, j | 0 <= i < j < |AllSides(players, groups)| ::
      AllSides(players, groups)[i] != AllSides(players, groups)[j]
  {
    var n, half := |players|, |players| / 2;
    PicksAscend(1, n, half - 1);
    var rests := Picks(1, n, half - 1);
    SidesAscend(players, groups, rests);
    SidesHas(players, groups, rests, side);
    if side != [] && side[0] == 0 {
      PicksAreAll(1, n, half - 1, side[1..]);
      FirstOrRest(side, 0, n, half);
    }
    AscendingIsDistinct(AllSides(players, groups));
  }

  lemma AscendingIsDistinct(picks: seq<seq<int>>)
    requires Ascending(picks)
    ensures forall i, j | 0 <= i < j < |picks| :: picks[i] != picks[j]
  {
    forall i, j | 0 <= i < j < |picks| ensures picks[i] != picks[j] { BeforeIsStrict(picks[i], picks[j]); }
  }

  // ---------- both teams ----------

  /** An ascending choice holds the largest index at its end or not at all. */
  lemma LargestIsLast(side: seq<int>, n: nat)
    requires IsPick(side, 0, n, |side|) && n > 0
    ensures
      if n - 1 in side then
        && side != [] && side == side[..|side| - 1] + [n - 1]
        && IsPick(side[..|side| - 1], 0, n - 1, |side| - 1)
      else IsPick(side, 0, n - 1, |side|)
  {
    var m := |side| - 1;
    if side != [] && side[m] != n - 1 {
      forall i | 0 <= i < |side| ensures side[i] < n - 1 { if i < m { assert side[i] < side[m]; } }
    }
  }

  lemma {:induction false} OthersCount(side: seq<int>, n: nat)
    requires IsPick(side, 0, n, |side|)
    ensures |Others(side, n)| == n - |side|
    decreases n
  {
    hide *;
    if n == 0 {
      if side != [] { PickNeedsRoom(side, n); }
      OthersOfNone(side);
    } else {
      LargestIsLast(side, n);
      OthersStep(side, n);
      if n - 1 in side {
        OthersCount(side[..|side| - 1], n - 1);
        OthersOfBelow(side[..|side| - 1], side, n - 1);
      } else {
        OthersCount(side, n - 1);
      }
    }
  }

  lemma PickNeedsRoom(side: seq<int>, n: nat)
    requires IsPick(side, 0, n, |side|) && side != []
    ensures n > 0
  {
    assert 0 <= side[0] < n;
  }

  lemma OthersOfNone(side: seq<int>)
    ensures |Others(side, 0)| == 0
  {
  }

  lemma OthersStep(side: seq<int>, n: nat)
    requires n > 0
    ensures |Others(side, n)| == |Others(side, n - 1)| + if n - 1 in side then 0 else 1
  {
  }

  lemma {:induction false} OthersOfBelow(s: seq<int>, t: seq<int>, n: nat)
    requires forall i | 0 <= i < n :: i in s <==> i in t
    ensures Others(s, n) == Others(t, n)
    decreases n
  {
    if n > 0 { OthersOfBelow(s, t, n - 1); }
  }

  /** Both teams are the same size and every player is on exactly one of them. */
  lemma TeamsArePartition(players: seq<Player>, groups: Duos, side: seq<int>, predict: Forecast)
    requires |players| % 2 == 0 && IsSide(side, players, groups)
    ensures
      var s := SplitOf(side, players, predict);
      && |s.teamA| == |s.teamB| == |players| / 2
      && multiset(s.teamA) + multiset(s.teamB) == multiset(Ids(players))
  {
    OthersCount(side, |players|);
    TeamsMakeAll(side, players);
  }

  lemma IdsOfFewer(idx: seq<int>, players: seq<Player>, n: nat)
    requires n <= |players| && InRange(idx, players[..n])
    ensures InRange(idx, players) && Ids(Team(idx, players)) == Ids(Team(idx, players[..n]))
  {
    forall k | 0 <= k < |idx| ensures 0 <= idx[k] < n && players[..n][idx[k]] == players[idx[k]] {
      assert idx[k] in idx;
    }
  }

  lemma IdsOfOneMore(idx: seq<int>, players: seq<Player>, i: nat)
    requires InRange(idx, players) && i < |players|
    ensures InRange(idx + [i], players)
    ensures Ids(Team(idx + [i], players)) == Ids(Team(idx, players)) + [players[i].steamid]
  {
  }

  lemma {:induction false} TeamsMakeAll(side: seq<int>, players: seq<Player>)
    requires IsPick(side, 0, |players|, |side|)
    ensures InRange(side, players)
    ensures multiset(Ids(Team(side, players))) + multiset(Ids(Team(Others(side, |players|), players))) ==
      multiset(Ids(players))
    decreases |players|
  {
    if players == [] {
      OthersCount(side, 0);
    } else {
      var n := |players| - 1;
      var fewer := players[..n];
      var m := |side| - 1;
      assert Ids(players) == Ids(fewer) + [players[n].steamid];
      LargestIsLast(side, n + 1);
      if n in side {
        var rest := side[..m];
        TeamsMakeAll(rest, fewer);
        OthersOfBelow(rest, side, n);
        IdsOfFewer(rest, players, n);
        IdsOfOneMore(rest, players, n);
        IdsOfFewer(Others(rest, n), players, n);
      } else {
        TeamsMakeAll(side, fewer);
        IdsOfFewer(side, players, n);
        IdsOfFewer(Others(side, n), players, n);
        IdsOfOneMore(Others(side, n), players, n);
      }
    }
  }

  // ---------- balanceTeams ----------

  function Gap(s: Split): real {
    if s.pWinA >= 0.5 then s.pWinA - 0.5 else 0.5 - s.pWinA
  }

  /** `i` is the first of the splits nearest to even. */
  ghost predicate FirstNearest(splits: seq<Split>, i: nat) {
    && i < |splits|
    && (forall j | 0 <= j < |splits| :: Gap(splits[i]) <= Gap(splits[j]))
    && (forall j | 0 <= j < i :: Gap(splits[i]) < Gap(splits[j]))
  }

  /** Strictly nearer replaces, so the first of equals stays. */
  method Nearest(splits: seq<Split>) returns (best: Option<Split>, ghost at: nat)
    ensures best.None? <==> splits == []
    ensures best.Some? ==> FirstNearest(splits, at) && best.value == splits[at]
  {
    best, at := None, 0;
    for i := 0 to |splits|
      invariant best.None? <==> i == 0
      invariant best.Some? ==> at < i && best.value == splits[at]
      invariant best.Some? ==> forall j | 0 <= j < i :: Gap(splits[at]) <= Gap(splits[j])
      invariant best.Some? ==> forall j | 0 <= j < at :: Gap(splits[at]) < Gap(splits[j])
    {
      var s := splits[i];
      if best.None? || Gap(s) < Gap(best.value) {
        best, at := Some(s), i;
      }
    }
  }

  /** `s` is the first nearest to even of all the splits that keep the groups, in dictionary order. */
  ghost predicate IsBestSplit(s: Split, players: seq<Player>, groups: Duos, predict: Forecast) {
    exists splits: seq<Split>, i: nat ::
      SplitsOf(splits, AllSides(players, groups), players, predict) && FirstNearest(splits, i) && s == splits[i]
  }

  lemma NoSidesIff(players: seq<Player>, groups: Duos)
    requires |players| >= 2
    ensures AllSides(players, groups) == [] <==> !exists side :: IsSide(side, players, groups)
  {
    if side :| IsSide(side, players, groups) { AllSidesAreListedOnce(players, groups, side); }
    if AllSides(players, groups) != [] { AllSidesAreListedOnce(players, groups, AllSides(players, groups)[0]); }
  }

  method BalanceTeams(players: seq<Player>, groups: Duos, predict: Forecast) returns (r: Result<Split, Error>)
    ensures |players| !in {4, 6, 8} ==> r == Err(WrongSize(|players|))
    ensures |players| in {4, 6, 8} ==>
      if exists side :: IsSide(side, players, groups) then r.Ok? && IsBestSplit(r.value, players, groups, predict)
      else r == Err(NoSplitKeepsGroups)
  {
    var splits := ValidSplits(players, groups, predict);
    if splits.Err? { return Err(splits.error); }
    NoSidesIff(players, groups);
    var best, at := Nearest(splits.value);
    hide IsSide, FirstNearest, AllSides;
    if best.None? { return Err(NoSplitKeepsGroups); }
    r := Ok(best.value);
  }
}
