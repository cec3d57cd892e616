/**
 What a score is made of, who can be drawn and what a tally leaves (src/ballot.ts), said of the matches, ballots and
 votes themselves.
 */
module BallotLaws {
  import opened Wrappers
  import opened Seqs
  import opened BallotPoints
  import opened BallotDecay
  import opened BallotDraw

  // ---------- a tally ----------

  /** A bump halves and is dropped under a hundredth, a loser with two votes gains one, and the winner's is gone. */
  lemma TallyLeaves(bumps: Bumps, t: Tally, slug: Slug)
    ensures
      var half := if slug in bumps then bumps[slug] / 2.0 else 0.0;
      var kept := if slug == t.winner || half < 0.01 then 0.0 else half;
      var lost := slug != t.winner && slug in t.votes && t.votes[slug] >= 2;
      && (slug in NextOf(bumps, t) <==> kept > 0.0 || lost)
      && (slug in NextOf(bumps, t) ==> NextOf(bumps, t)[slug] == if lost then kept + 1.0 else kept)
  {
  }

  // ---------- a player's points ----------

  /** The latest match in which the player played the campaign, 0 when there is none. */
  ghost predicate LastPlayedIn(h: History, slug: Slug, last: int) {
    || (last == 0 && forall i | 0 <= i < |h.played| :: h.played[i].campaign != slug)
    || exists i :: && 0 <= i < |h.played| && h.played[i] == Played(last, slug)
                   && forall j | 0 <= j < i :: h.played[j].campaign != slug
  }

  /** One of the last eight ballots, since the player last played it, offered the campaign and got it no vote. */
  ghost predicate PassedOver(h: History, slug: Slug, last: int) {
    exists k :: && 0 <= k < |h.ballots| && k < 8 && h.ballots[k].matchId > last && slug in h.ballots[k].options
                && !(slug in h.ballots[k].votes && h.ballots[k].votes[slug] != 0)
  }

  lemma LastPlayedIs(h: History, slug: Slug, last: int)
    requires LastPlayedIn(h, slug, last)
    ensures last == LastPlayed(h, slug)
  {
    var at := Since(h.played, slug);
    if at < |h.played| { assert h.played[at].campaign == slug; }
  }

  lemma PassedOverIs(h: History, slug: Slug)
    ensures PassedOver(h, slug, LastPlayed(h, slug))
       <==> exists b | b in Recent(h.ballots) :: Ignored(b, slug, LastPlayed(h, slug))
  {
    var recent, last := Recent(h.ballots), LastPlayed(h, slug);
    if PassedOver(h, slug, last) {
      var k :| && 0 <= k < |h.ballots| && k < 8 && h.ballots[k].matchId > last && slug in h.ballots[k].options
               && !(slug in h.ballots[k].votes && h.ballots[k].votes[slug] != 0);
      assert recent[k] == h.ballots[k] && recent[k] in recent;
    }
    if b :| b in recent && Ignored(b, slug, last) {
      var k :| 0 <= k < |recent| && recent[k] == b;
      assert h.ballots[k] == b;
    }
  }

  lemma Lessened(points: real, keep: real)
    requires points >= 0.0 && 0.25 < keep <= 1.0
    ensures 0.0 <= points * keep <= points
    ensures points > 0.0 ==> points * keep > points / 4.0
    ensures points * keep == points <==> points == 0.0 || keep == 1.0
  {
    if points > 0.0 && keep < 1.0 { assert points * (1.0 - keep) > 0.0; }
    if points > 0.0 { assert points * (keep - 0.25) > 0.0; }
  }

  /** A campaign the player passed over keeps more than a quarter of its points and not all; any other keeps all. */
  lemma KeptIs(h: History, scored: seq<Slug>, slug: Slug, last: int)
    requires LastPlayedIn(h, slug, last)
    ensures
      var points, kept := Points(h.played, scored, slug), Kept(h, scored, slug);
      && points >= 0.0 && (!PassedOver(h, slug, last) ==> kept == points)
      && (PassedOver(h, slug, last) && points > 0.0 ==> points / 4.0 < kept < points)
  {
    hide Points, KeepOver, Ignored, PassedOver;
    LastPlayedIs(h, slug, last);
    PassedOverIs(h, slug);
    var recent := Recent(h.ballots);
    var points, keep := Points(h.played, scored, slug), KeepOver(recent, slug, last);
    KeepIsBounded(recent, slug, last);
    WholeIffNeverIgnored(recent, slug, last);
    NonNegativePoints(h.played, scored, slug);
    Lessened(points, keep);
    assert Kept(h, scored, slug) == points * keep;
    if PassedOver(h, slug, last) {
      assert keep != 1.0;
    }
  }

  lemma NonNegativePoints(played: seq<Played>, scored: seq<Slug>, slug: Slug)
    ensures Points(played, scored, slug) >= 0.0
  {
    hide RankSum;
    var i, m := Longer(played, scored, Since(played, slug)), Tied(played, scored, Since(played, slug));
    RankSumNonNegative(i, i + m);
  }

  // ---------- a score ----------

  /** A bump lifts a score by as much as it is. */
  lemma BumpLifts(input: DrawInput, scored: seq<Slug>, slug: Slug)
    ensures
      var plain := input.(bumps := input.bumps - {slug});
      Score(input, scored, slug) - Score(plain, scored, slug) ==
        if slug in input.bumps then input.bumps[slug] else 0.0
  {
    hide KeptByAll;
  }

  lemma {:induction false} SumOfEqual(histories: seq<History>, scored: seq<Slug>, slug: Slug, each: real)
    requires forall h | h in histories :: Kept(h, scored, slug) == each
    ensures KeptByAll(histories, scored, slug) == |histories| as real * each
    decreases |histories|
  {
    hide Kept;
    if histories != [] {
      var n := |histories| - 1;
      assert histories == histories[..n] + [histories[n]];
      SumOfEqual(histories[..n], scored, slug, each);
      assert (n as real + 1.0) * each == n as real * each + each;
    }
  }

  lemma Mean(n: nat, each: real)
    requires n > 0
    ensures n as real * each / n as real == each
  {
  }

  /** A lobby that agrees scores what each of its players would; an empty one the most there is. */
  lemma AgreedScore(input: DrawInput, scored: seq<Slug>, slug: Slug, each: real)
    requires slug !in input.bumps && forall h | h in input.histories :: Kept(h, scored, slug) == each
    ensures Score(input, scored, slug) == if input.histories == [] then 4.0 else each
  {
    hide Kept, KeptByAll;
    if input.histories != [] {
      SumOfEqual(input.histories, scored, slug, each);
      Mean(|input.histories|, each);
    }
  }

  lemma {:induction false} SumWithAnother(histories: seq<History>, i: nat, h: History, scored: seq<Slug>, slug: Slug)
    requires i < |histories|
    ensures KeptByAll(histories[i := h], scored, slug) - KeptByAll(histories, scored, slug) ==
      Kept(h, scored, slug) - Kept(histories[i], scored, slug)
    decreases |histories|
  {
    hide Kept;
    var n, after := |histories| - 1, histories[i := h];
    if i < n {
      assert after[..n] == histories[..n][i := h];
      SumWithAnother(histories[..n], i, h, scored, slug);
    } else {
      assert after[..n] == histories[..n];
    }
  }

  lemma Difference(a: real, b: real, n: nat)
    requires n > 0
    ensures a / n as real - b / n as real == (a - b) / n as real
  {
  }

  /** Every player of the lobby has the same say in it. */
  lemma EachHasTheSameSay(input: DrawInput, i: nat, h: History, scored: seq<Slug>, slug: Slug)
    requires i < |input.histories|
    ensures
      var other := input.(histories := input.histories[i := h]);
      Score(other, scored, slug) - Score(input, scored, slug) ==
        (Kept(h, scored, slug) - Kept(input.histories[i], scored, slug)) / |input.histories| as real
  {
    hide Kept, KeptByAll;
    var hs := input.histories;
    SumWithAnother(hs, i, h, scored, slug);
    Difference(KeptByAll(hs[i := h], scored, slug), KeptByAll(hs, scored, slug), |hs|);
  }

  // ---------- who can be drawn ----------

  /** The options whose score is above this one's by more than rounding. */
  ghost function Better(options: seq<BallotOption>, x: real): set<nat> {
    set i | 0 <= i < |options| && options[i].weight.Some? && options[i].weight.value > x
  }

  lemma {:induction false} BetterCounted(options: seq<BallotOption>, x: real)
    requires x >= 0.0
    ensures Above(options, x) == |Better(options, x)|
    decreases |options|
  {
    if options != [] {
      var n := |options| - 1;
      BetterCounted(options[..n], x);
      var all, before := Better(options, x), Better(options[..n], x);
      assert all == if n in all then before + {n} else before;
    }
  }

  /** A slot draws one of its campaigns that fewer than three others beat; the first slot only its best. */
  lemma DrawnIsAmongTheBest(o: BallotOption, input: DrawInput, slot: Category, roll: real)
    requires forall slug | slug in input.bumps :: input.bumps[slug] >= 0.0
    requires IsDraw(o, input, slot, roll)
    ensures exists options ::
      && ScoredOptions(options, input, slot) && o in options && o.weight.Some?
      && |Better(options, o.weight.value + 0.000000001)| < if slot == L4d1 then 1 else 3
  {
    hide Above, IsDraw, Score, Better;
    var options := DrawIsContender(o, input, slot, roll);
    ScoresNonNegative(input, options, slot);
    BetterCounted(options, Weight(o) + SCORE_EPSILON);
    assert o.weight.Some?;
  }

  lemma StretchHolds(weights: seq<real>, i: nat) returns (roll: real)
    requires i < |weights| && weights[i] > 0.0 && forall w | w in weights :: w >= 0.0
    ensures 0.0 <= roll < 1.0 && IsPick(weights, roll, i)
  {
    var n := |weights|;
    PrefixGrows(weights, 0, i);
    PrefixGrows(weights, i + 1, n);
    var total, from := Prefix(weights, n), Prefix(weights, i);
    hide Prefix;
    roll := from / total;
    Share(from, total);
  }

  lemma Share(from: real, total: real)
    requires 0.0 <= from < total
    ensures 0.0 <= from / total < 1.0 && from / total * total == from
  {
  }

  /** And each such campaign of some weight is drawn by some roll. */
  lemma EachOfTheBestCanBeDrawn(o: BallotOption, input: DrawInput, slot: Category, options: seq<BallotOption>)
    returns (roll: real)
    requires forall slug | slug in input.bumps :: input.bumps[slug] >= 0.0
    requires ScoredOptions(options, input, slot) && o in options && o.weight.Some? && o.weight.value > 0.0
    requires |Better(options, o.weight.value + 0.000000001)| < if slot == L4d1 then 1 else 3
    ensures 0.0 <= roll < 1.0 && IsDraw(o, input, slot, roll)
  {
    hide Above, ScoredOptions, Better, IsPick, Pool;
    ScoresNonNegative(input, options, slot);
    BetterCounted(options, Weight(o) + SCORE_EPSILON);
    var pool := Pool(options, SlotTop(slot));
    PoolHas(options, SlotTop(slot));
    var i :| 0 <= i < |pool| && pool[i] == o;
    forall w | w in Weights(pool) ensures w >= 0.0 {
      var k :| 0 <= k < |pool| && Weights(pool)[k] == w;
      assert pool[k] in pool;
    }
    roll := StretchHolds(Weights(pool), i);
    assert DrawnFrom(o, pool, roll);
  }
}
