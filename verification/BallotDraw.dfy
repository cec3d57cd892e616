/** The draw of a slot ballot (weightedPick and drawBallot in src/ballot.ts). */
module BallotDraw {
  import opened Wrappers
  import opened Seqs
  import opened Sorting
  import opened BallotPoints
  import opened BallotDecay

  // ---------- weightedPick ----------

  ghost function Prefix(weights: seq<real>, n: nat): real
    requires n <= |weights|
  {
    if n == 0 then 0.0 else Prefix(weights, n - 1) + weights[n - 1]
  }

  /** `i` owns the stretch of `[0, total)` as long as its weight that the roll falls into. */
  ghost predicate IsPick(weights: seq<real>, roll: real, i: nat) {
    var total := Prefix(weights, |weights|);
    && i < |weights|
    && if total <= 0.0 then i == (roll * |weights| as real).Floor
       else 0.0 <= roll < 1.0 && Prefix(weights, i) <= Position(roll, total) < Prefix(weights, i + 1)
  }

  method TotalWeight(weights: seq<real>) returns (total: real)
    ensures total == Prefix(weights, |weights|)
  {
    total := 0.0;
    for k := 0 to |weights|
      invariant total == Prefix(weights, k)
    {
      total := total + weights[k];
    }
  }

  method WeightedPick(weights: seq<real>, roll: real) returns (i: nat)
    requires weights != [] && 0.0 <= roll < 1.0
    ensures IsPick(weights, roll, i)
  {
    var total := TotalWeight(weights);
    if total <= 0.0 {
      FirstBelow(roll, |weights|);
      i := (roll * |weights| as real).Floor;
    } else {
      i := Walk(weights, Position(roll, total));
    }
  }

  /** Where on `[0, total)` the roll falls. */
  function Position(roll: real, total: real): (r: real)
    requires 0.0 <= roll < 1.0 && total > 0.0
    ensures 0.0 <= r < total
  {
    Below(roll, total);
    roll * total
  }

  /** Takes the weights off `from` until it is below zero; the last one is the fallback. */
  method Walk(weights: seq<real>, from: real) returns (i: nat)
    requires weights != [] && 0.0 <= from < Prefix(weights, |weights|)
    ensures i < |weights| && Prefix(weights, i) <= from < Prefix(weights, i + 1)
  {
    i := 0;
    var r := from - weights[0];
    while r >= 0.0 && i + 1 < |weights|
      invariant i < |weights| && r == from - Prefix(weights, i + 1) && Prefix(weights, i) <= from
      decreases |weights| - i
    {
      i := i + 1;
      r := r - weights[i];
    }
  }

  lemma Below(roll: real, total: real)
    requires 0.0 <= roll < 1.0 && total > 0.0
    ensures 0.0 <= roll * total < total
  {
    assert total * (1.0 - roll) > 0.0;
  }

  lemma FirstBelow(roll: real, n: nat)
    requires 0.0 <= roll < 1.0 && n >= 1
    ensures 0 <= (roll * n as real).Floor < n
  {
    Below(roll, n as real);
  }

  /** An option of no weight is drawn only when none has any. */
  lemma WeightlessIsNotDrawn(weights: seq<real>, roll: real, i: nat)
    requires IsPick(weights, roll, i) && Prefix(weights, |weights|) > 0.0
    ensures weights[i] > 0.0
  {
  }

  lemma {:induction false} PrefixGrows(weights: seq<real>, m: nat, n: nat)
    requires m <= n <= |weights| && forall w | w in weights :: w >= 0.0
    ensures Prefix(weights, m) <= Prefix(weights, n)
    decreases n
  {
    if m < n {
      assert weights[n - 1] in weights;
      PrefixGrows(weights, m, n - 1);
    }
  }

  /** Each roll draws one option: the stretches do not overlap. */
  lemma PickIsUnique(weights: seq<real>, roll: real, i: nat, j: nat)
    requires forall w | w in weights :: w >= 0.0
    requires IsPick(weights, roll, i) && IsPick(weights, roll, j)
    ensures i == j
  {
    if i < j { PrefixGrows(weights, i + 1, j); }
    if j < i { PrefixGrows(weights, j + 1, i); }
  }

  // ---------- drawBallot ----------

  datatype Category = L4d1 | L4d2 | Custom | Mirror

  const BALLOT_SLOTS := [L4d1, L4d2, Custom, Mirror]
  const MAX_STICKIES := 3
  const RECENT_WINDOW := 3
  const SCORE_EPSILON := 0.000000001

  function SlotTop(slot: Category): nat {
    if slot == L4d1 then 1 else 3
  }

  datatype Candidate = Candidate(slug: Slug, category: Category)

  datatype DrawInput = DrawInput(candidates: seq<Candidate>, histories: seq<History>, bumps: Bumps, stickies: seq<Slug>)

  /** A sticky has no slot and no weight. */
  datatype BallotOption = BallotOption(slug: Slug, slot: Option<Category>, weight: Option<real>, bump: real,
                                       recentBy: nat)

  function FirstOf<T>(s: seq<T>, n: nat): seq<T> {
    if |s| > n then s[..n] else s
  }

  predicate PlayedRecently(h: History, slug: Slug) {
    exists p | p in FirstOf(h.played, RECENT_WINDOW) :: p.campaign == slug
  }

  function RecentBy(histories: seq<History>, slug: Slug): (n: nat)
    ensures n > 0 <==> exists h | h in histories :: PlayedRecently(h, slug)
  {
    if histories == [] then 0
    else RecentBy(histories[1..], slug) + if PlayedRecently(histories[0], slug) then 1 else 0
  }

  function InSlot(candidates: seq<Candidate>, slot: Category): (r: seq<Slug>)
    ensures forall slug :: slug in r <==> Candidate(slug, slot) in candidates
  {
    if candidates == [] then []
    else if candidates[0].category == slot then [candidates[0].slug] + InSlot(candidates[1..], slot)
    else InSlot(candidates[1..], slot)
  }

  function Fresh(slugs: seq<Slug>, histories: seq<History>): (r: seq<Slug>)
    ensures forall slug :: slug in r <==> slug in slugs && RecentBy(histories, slug) == 0
  {
    if slugs == [] then []
    else if RecentBy(histories, slugs[0]) == 0 then [slugs[0]] + Fresh(slugs[1..], histories)
    else Fresh(slugs[1..], histories)
  }

  /** The campaigns of a slot nobody played recently, or all of them when there are none. */
  function Scored(input: DrawInput, slot: Category): seq<Slug> {
    var all := InSlot(input.candidates, slot);
    var unplayed := Fresh(all, input.histories);
    if unplayed != [] then unplayed else all
  }

  /** A player's points for a campaign, less what no-vote showings take. */
  ghost function Kept(h: History, scored: seq<Slug>, slug: Slug): real {
    Points(h.played, scored, slug) * KeepOver(Recent(h.ballots), slug, LastPlayed(h, slug))
  }

  ghost function KeptByAll(histories: seq<History>, scored: seq<Slug>, slug: Slug): real {
    if histories == [] then 0.0
    else KeptByAll(histories[..|histories| - 1], scored, slug) + Kept(histories[|histories| - 1], scored, slug)
  }

  function BumpOf(input: DrawInput, slug: Slug): real {
    if slug in input.bumps then input.bumps[slug] else 0.0
  }

  /** The lobby's average, and the bump on top. */
  ghost function Score(input: DrawInput, scored: seq<Slug>, slug: Slug): real {
    (if input.histories == [] then RankPoint(0)
     else KeptByAll(input.histories, scored, slug) / |input.histories| as real)
      + BumpOf(input, slug)
  }

  function Weight(o: BallotOption): real {
    o.weight.GetOr(0.0)
  }

  /** How many options score above `x`. */
  ghost function Above(options: seq<BallotOption>, x: real): nat {
    if options == [] then 0
    else Above(options[..|options| - 1], x) + if Weight(options[|options| - 1]) > x then 1 else 0
  }

  ghost function OptionOf(input: DrawInput, scored: seq<Slug>, slot: Category, slug: Slug): BallotOption {
    BallotOption(slug, Some(slot), Some(Score(input, scored, slug)), BumpOf(input, slug),
                 RecentBy(input.histories, slug))
  }

  ghost predicate ScoredOptions(options: seq<BallotOption>, input: DrawInput, slot: Category) {
    var scored := Scored(input, slot);
    && |options| == |scored|
    && forall i | 0 <= i < |options| :: options[i] == OptionOf(input, scored, slot, scored[i])
  }

  /** The options beaten by fewer than `top` of the slot's scores. */
  ghost function Contenders(all: seq<BallotOption>, options: seq<BallotOption>, top: nat): (r: seq<BallotOption>)
    ensures forall o :: o in r <==> o in options && Above(all, Weight(o) + SCORE_EPSILON) < top
  {
    if options == [] then []
    else
      var m := |options| - 1;
      assert options == options[..m] + [options[m]];
      Contenders(all, options[..m], top)
      + if Above(all, Weight(options[m]) + SCORE_EPSILON) < top then [options[m]] else []
  }

  /** What a slot draws from: its contenders, highest score first. */
  ghost function Pool(options: seq<BallotOption>, top: nat): seq<BallotOption> {
    Sort(Contenders(options, options, top), Weight)
  }

  function Weights(pool: seq<BallotOption>): (w: seq<real>)
    ensures |w| == |pool| && forall i | 0 <= i < |w| :: w[i] == Weight(pool[i])
  {
    seq(|pool|, i requires 0 <= i < |pool| => Weight(pool[i]))
  }

  /** The one of the pool whose share of the weights the roll falls into. */
  ghost predicate DrawnFrom(o: BallotOption, pool: seq<BallotOption>, roll: real) {
    exists i: nat :: IsPick(Weights(pool), roll, i) && pool[i] == o
  }

  /** What this roll draws of a slot. */
  ghost predicate IsDraw(o: BallotOption, input: DrawInput, slot: Category, roll: real) {
    exists options :: ScoredOptions(options, input, slot) && DrawnFrom(o, Pool(options, SlotTop(slot)), roll)
  }

  lemma PoolHas(options: seq<BallotOption>, top: nat)
    ensures forall o :: o in Pool(options, top) <==> o in options && Above(options, Weight(o) + SCORE_EPSILON) < top
  {
    var these := Contenders(options, options, top);
    SortSorts(these, Weight);
    assert forall o :: o in Pool(options, top) <==> o in multiset(Pool(options, top));
    assert forall o :: o in these <==> o in multiset(these);
  }

  lemma DrawnIsInPool(o: BallotOption, pool: seq<BallotOption>, roll: real)
    requires DrawnFrom(o, pool, roll)
    ensures o in pool
  {
    hide Prefix;
    var i: nat :| IsPick(Weights(pool), roll, i) && pool[i] == o;
  }

  lemma OptionsOfSlot(options: seq<BallotOption>, input: DrawInput, slot: Category)
    requires ScoredOptions(options, input, slot)
    ensures forall o | o in options :: o.slot == Some(slot)
  {
  }

  /** A draw is one of the slot's scored campaigns, beaten by fewer than SLOT_TOP of them. */
  lemma DrawIsContender(o: BallotOption, input: DrawInput, slot: Category, roll: real)
    returns (options: seq<BallotOption>)
    requires IsDraw(o, input, slot, roll)
    ensures ScoredOptions(options, input, slot) && o in options
    ensures Above(options, Weight(o) + SCORE_EPSILON) < SlotTop(slot) && o.slot == Some(slot)
  {
    hide Above, ScoredOptions, DrawnFrom, Pool, SlotTop, Weight;
    options :| ScoredOptions(options, input, slot) && DrawnFrom(o, Pool(options, SlotTop(slot)), roll);
    PoolHas(options, SlotTop(slot));
    DrawnIsInPool(o, Pool(options, SlotTop(slot)), roll);
    OptionsOfSlot(options, input, slot);
  }

  method PointsOf(h: History, scored: seq<Slug>, slug: Slug, points: map<Slug, real>) returns (r: real)
    requires slug in points && points[slug] == Points(h.played, scored, slug)
    ensures r == Kept(h, scored, slug)
  {
    var keep := IgnoredKeep(h, slug);
    r := points[slug] * keep;
  }

  method ScoreOne(input: DrawInput, scored: seq<Slug>, slug: Slug, perPlayer: seq<map<Slug, real>>)
    returns (weight: real)
    requires slug in scored && |perPlayer| == |input.histories|
    requires forall i | 0 <= i < |perPlayer| ::
      slug in perPlayer[i] && perPlayer[i][slug] == Points(input.histories[i].played, scored, slug)
    ensures weight == Score(input, scored, slug)
  {
    var hs := input.histories;
    var sum := 0.0;
    for i := 0 to |hs|
      invariant sum == KeptByAll(hs[..i], scored, slug)
    {
      assert hs[..i + 1][..i] == hs[..i];
      var points := PointsOf(hs[i], scored, slug, perPlayer[i]);
      sum := sum + points;
    }
    assert hs[..|hs|] == hs;
    var base := if hs == [] then RankPoint(0) else sum / |hs| as real;
    weight := base + BumpOf(input, slug);
  }

  method PointsOfAll(histories: seq<History>, scored: seq<Slug>) returns (perPlayer: seq<map<Slug, real>>)
    ensures |perPlayer| == |histories|
    ensures forall k, slug | 0 <= k < |histories| && slug in scored ::
      slug in perPlayer[k] && perPlayer[k][slug] == Points(histories[k].played, scored, slug)
  {
    hide Points;
    perPlayer := [];
    for i := 0 to |histories|
      invariant |perPlayer| == i
      invariant forall k, slug | 0 <= k < i && slug in scored ::
        slug in perPlayer[k] && perPlayer[k][slug] == Points(histories[k].played, scored, slug)
    {
      var points := RankPoints(histories[i], scored);
      perPlayer := perPlayer + [points];
    }
  }

  method ScoreSlot(input: DrawInput, slot: Category) returns (options: seq<BallotOption>)
    ensures ScoredOptions(options, input, slot)
  {
    hide Points, Score, Scored;
    var scored := Scored(input, slot);
    var perPlayer := PointsOfAll(input.histories, scored);
    options := [];
    for i := 0 to |scored|
      invariant |options| == i
      invariant forall k | 0 <= k < i :: options[k] == OptionOf(input, scored, slot, scored[k])
    {
      assert scored[i] in scored;
      var weight := ScoreOne(input, scored, scored[i], perPlayer);
      options := options
        + [BallotOption(scored[i], Some(slot), Some(weight), BumpOf(input, scored[i]),
                        RecentBy(input.histories, scored[i]))];
    }
  }

  lemma {:induction false} AboveOfMore(a: seq<BallotOption>, b: seq<BallotOption>, x: real)
    ensures Above(a + b, x) == Above(a, x) + Above(b, x)
    decreases |b|
  {
    if b == [] {
      assert a + b == a;
    } else {
      assert (a + b)[..|a + b| - 1] == a + b[..|b| - 1];
      AboveOfMore(a, b[..|b| - 1], x);
    }
  }

  lemma {:induction false} AboveIgnoresOrder(a: seq<BallotOption>, b: seq<BallotOption>, x: real)
    requires multiset(a) == multiset(b)
    ensures Above(a, x) == Above(b, x)
    decreases |a|
  {
    if a == [] {
      assert b == [] by { assert |multiset(b)| == |b|; }
    } else {
      var i := TakeOut(a, b);
      var m, o := |a| - 1, a[|a| - 1];
      AboveIgnoresOrder(a[..m], b[..i] + b[i + 1..], x);
      AboveOfMore(b[..i], b[i + 1..], x);
      AboveOfMore(b[..i] + [o], b[i + 1..], x);
      AboveOfMore(b[..i], [o], x);
    }
  }

  /** Fewer than `top` of a descending list are above its `top`-th. */
  lemma {:induction false} FewAreAbove(ranked: seq<BallotOption>, top: nat, x: real)
    requires 0 < top && Descending(ranked, Weight) && (top <= |ranked| ==> Weight(ranked[top - 1]) <= x)
    requires |ranked| < top ==> ranked != [] && Weight(ranked[|ranked| - 1]) <= x
    ensures Above(ranked, x) < top
    decreases |ranked|
  {
    var m := |ranked| - 1;
    if top < |ranked| {
      FewAreAbove(ranked[..m], top, x);
    } else {
      AboveAtMostAll(ranked[..m], x);
    }
  }

  lemma {:induction false} AboveAtMostAll(options: seq<BallotOption>, x: real)
    ensures Above(options, x) <= |options|
    decreases |options|
  {
    if options != [] { AboveAtMostAll(options[..|options| - 1], x); }
  }

  /** As many are above a score as the cut leaves, exactly when the score is below the cut. */
  lemma {:induction false} ManyAreAbove(ranked: seq<BallotOption>, top: nat, x: real)
    requires top <= |ranked| && forall i | 0 <= i < top :: Weight(ranked[i]) > x
    ensures Above(ranked, x) >= top
    decreases |ranked|
  {
    if |ranked| > top {
      ManyAreAbove(ranked[..|ranked| - 1], top, x);
    } else if ranked != [] {
      ManyAreAbove(ranked[..|ranked| - 1], top - 1, x);
    }
  }

  /** When fewer than `top` are ranked the cut is at the last of them. */
  lemma LastIsLeast(ranked: seq<BallotOption>, last: nat, i: nat)
    requires Descending(ranked, Weight) && last < |ranked| && i < |ranked|
    ensures i <= last ==> Weight(ranked[i]) >= Weight(ranked[last])
  {
  }

  lemma AboveOrUnder(ranked: seq<BallotOption>, top: nat, last: nat, x: real)
    requires Descending(ranked, Weight) && last < |ranked| && 0 < top
    requires last == if top <= |ranked| then top - 1 else |ranked| - 1
    requires exists o :: o in ranked && x == Weight(o) + SCORE_EPSILON
    ensures x >= Weight(ranked[last]) <==> Above(ranked, x) < top
  {
    hide Above, Weight;
    if x >= Weight(ranked[last]) {
      FewAreAbove(ranked, top, x);
    } else {
      assert top <= |ranked| by {
        var o :| o in ranked && x == Weight(o) + SCORE_EPSILON;
        var i :| 0 <= i < |ranked| && ranked[i] == o;
        LastIsLeast(ranked, last, i);
      }
      ManyAreAbove(ranked, top, x);
    }
  }

  lemma CutIsContention(options: seq<BallotOption>, ranked: seq<BallotOption>, top: nat, last: nat, o: BallotOption)
    requires 0 < top && ranked == Sort(options, Weight) && |ranked| == |options| && last < |ranked|
    requires last == if top <= |options| then top - 1 else |options| - 1
    requires o in options
    ensures Weight(o) >= Weight(ranked[last]) - SCORE_EPSILON <==> Above(options, Weight(o) + SCORE_EPSILON) < top
  {
    hide Above, Sort;
    var x := Weight(o) + SCORE_EPSILON;
    SortSorts(options, Weight);
    AboveIgnoresOrder(ranked, options, x);
    assert o in multiset(ranked);
    assert o in ranked;
    AboveOrUnder(ranked, top, last, x);
  }

  lemma {:induction false} SameFilter(all: seq<BallotOption>, options: seq<BallotOption>, top: nat, cut: real)
    requires forall o | o in options :: Weight(o) >= cut <==> Above(all, Weight(o) + SCORE_EPSILON) < top
    ensures AtLeast(options, Weight, cut) == Contenders(all, options, top)
    decreases |options|
  {
    if options != [] { SameFilter(all, options[..|options| - 1], top, cut); }
  }

  lemma CutIsPool(options: seq<BallotOption>, ranked: seq<BallotOption>, top: nat, last: nat)
    requires 0 < top && ranked == Sort(options, Weight) && |ranked| == |options| && last < |ranked|
    requires last == if top <= |options| then top - 1 else |options| - 1
    ensures AtLeast(ranked, Weight, Weight(ranked[last]) - SCORE_EPSILON) == Pool(options, top)
  {
    hide Above, Sort, AtLeast, Contenders;
    var cut := Weight(ranked[last]) - SCORE_EPSILON;
    forall o | o in options ensures Weight(o) >= cut <==> Above(options, Weight(o) + SCORE_EPSILON) < top {
      CutIsContention(options, ranked, top, last, o);
    }
    SameFilter(options, options, top, cut);
    CutSorted(options, Weight, cut);
  }

  /** The top scores, and anything tied with the last of them. */
  method DrawSlot(options: seq<BallotOption>, top: nat, roll: real) returns (o: BallotOption)
    requires options != [] && top > 0 && 0.0 <= roll < 1.0
    ensures DrawnFrom(o, Pool(options, top), roll)
  {
    hide Above, Contenders, Pool;
    var ranked := Sort(options, Weight);
    SortSorts(options, Weight);
    var last := if top <= |ranked| then top - 1 else |ranked| - 1;
    var pool := AtLeast(ranked, Weight, Weight(ranked[last]) - SCORE_EPSILON);
    AtLeastHas(ranked, Weight, Weight(ranked[last]) - SCORE_EPSILON);
    assert ranked[last] in pool;
    CutIsPool(options, ranked, top, last);
    var i := WeightedPick(Weights(pool), roll);
    o := pool[i];
  }

  ghost function NonEmpty(input: DrawInput, slots: seq<Category>): seq<Category> {
    if slots == [] then []
    else
      var m := |slots| - 1;
      NonEmpty(input, slots[..m]) + if InSlot(input.candidates, slots[m]) == [] then [] else [slots[m]]
  }

  /** The rolls of those slots. */
  ghost function RollsOf(input: DrawInput, slots: seq<Category>, rolls: seq<real>): (r: seq<real>)
    requires |rolls| == |slots|
    ensures |r| == |NonEmpty(input, slots)|
  {
    if slots == [] then []
    else
      var m := |slots| - 1;
      RollsOf(input, slots[..m], rolls[..m]) + if InSlot(input.candidates, slots[m]) == [] then [] else [rolls[m]]
  }

  /** One draw of each of the slots, in their order, each by its roll. */
  ghost predicate DrawsOf(out: seq<BallotOption>, input: DrawInput, slots: seq<Category>, rolls: seq<real>) {
    && |out| == |slots| == |rolls|
    && forall i | 0 <= i < |out| :: out[i].slot == Some(slots[i]) && IsDraw(out[i], input, slots[i], rolls[i])
  }

  /** The stickies asked for that nobody played recently, after the draws, none of them twice. */
  ghost predicate StickiesOf(out: seq<BallotOption>, drawn: nat, input: DrawInput, asked: seq<Slug>) {
    && drawn <= |out|
    && (forall i | drawn <= i < |out| ::
          && out[i].slot == None && out[i].weight == None
          && out[i].slug in asked && RecentBy(input.histories, out[i].slug) == 0)
    && (forall i, j | 0 <= i < j < |out| && drawn <= j :: out[i].slug != out[j].slug)
    && (forall slug | slug in asked && RecentBy(input.histories, slug) == 0 :: exists o :: o in out && o.slug == slug)
  }

  ghost predicate IsBallot(out: seq<BallotOption>, input: DrawInput, rolls: seq<real>)
    requires |rolls| == |BALLOT_SLOTS|
  {
    var slots := NonEmpty(input, BALLOT_SLOTS);
    && |slots| <= |out| && DrawsOf(out[..|slots|], input, slots, RollsOf(input, BALLOT_SLOTS, rolls))
    && StickiesOf(out, |slots|, input, FirstOf(input.stickies, MAX_STICKIES))
  }

  lemma PickIsDraw(options: seq<BallotOption>, o: BallotOption, input: DrawInput, slot: Category, roll: real)
    requires ScoredOptions(options, input, slot) && DrawnFrom(o, Pool(options, SlotTop(slot)), roll)
    ensures IsDraw(o, input, slot, roll) && o.slot == Some(slot)
  {
    var these := DrawIsContender(o, input, slot, roll);
  }

  method DrawOne(input: DrawInput, slot: Category, roll: real) returns (pick: BallotOption)
    requires InSlot(input.candidates, slot) != [] && 0.0 <= roll < 1.0
    ensures IsDraw(pick, input, slot, roll) && pick.slot == Some(slot)
  {
    hide IsDraw, Above, DrawnFrom, Pool;
    var options := ScoreSlot(input, slot);
    pick := DrawSlot(options, SlotTop(slot), roll);
    PickIsDraw(options, pick, input, slot, roll);
  }

  method DrawSlots(input: DrawInput, slots: seq<Category>, rolls: seq<real>) returns (out: seq<BallotOption>)
    requires |rolls| == |slots| && forall roll | roll in rolls :: 0.0 <= roll < 1.0
    ensures DrawsOf(out, input, NonEmpty(input, slots), RollsOf(input, slots, rolls))
  {
    hide IsDraw, InSlot;
    out := [];
    for i := 0 to |slots|
      invariant DrawsOf(out, input, NonEmpty(input, slots[..i]), RollsOf(input, slots[..i], rolls[..i]))
    {
      assert slots[..i + 1][..i] == slots[..i] && rolls[..i + 1][..i] == rolls[..i] && rolls[i] in rolls;
      if InSlot(input.candidates, slots[i]) == [] { continue; }
      var pick := DrawOne(input, slots[i], rolls[i]);
      out := out + [pick];
    }
    assert slots[..|slots|] == slots && rolls[..|rolls|] == rolls;
  }

  predicate Listed(out: seq<BallotOption>, slug: Slug) {
    exists o | o in out :: o.slug == slug
  }

  method AddStickies(input: DrawInput, drawn: seq<BallotOption>) returns (out: seq<BallotOption>)
    ensures |drawn| <= |out| && out[..|drawn|] == drawn
    ensures StickiesOf(out, |drawn|, input, FirstOf(input.stickies, MAX_STICKIES))
  {
    var asked := FirstOf(input.stickies, MAX_STICKIES);
    out := drawn;
    for i := 0 to |asked|
      invariant |drawn| <= |out| && out[..|drawn|] == drawn
      invariant StickiesOf(out, |drawn|, input, asked[..i])
    {
      TakeOneMore(asked, i);
      var slug := asked[i];
      if Listed(out, slug) || RecentBy(input.histories, slug) > 0 { continue; }
      var before := out;
      out := out + [BallotOption(slug, None, None, BumpOf(input, slug), 0)];
      StickyAdded(before, out[|before|], |drawn|, input, asked[..i]);
    }
    assert asked[..|asked|] == asked;
  }

  lemma StickyAdded(out: seq<BallotOption>, o: BallotOption, drawn: nat, input: DrawInput, asked: seq<Slug>)
    requires StickiesOf(out, drawn, input, asked) && !Listed(out, o.slug)
    requires o.slot == None && o.weight == None && RecentBy(input.histories, o.slug) == 0
    ensures StickiesOf(out + [o], drawn, input, asked + [o.slug])
  {
    forall slug | slug in asked + [o.slug] && RecentBy(input.histories, slug) == 0
      ensures exists p :: p in out + [o] && p.slug == slug
    {
      if slug == o.slug {
        assert o in out + [o];
      } else {
        var p :| p in out && p.slug == slug;
        assert p in out + [o];
      }
    }
  }

  method DrawBallot(input: DrawInput, rolls: seq<real>) returns (out: seq<BallotOption>)
    requires |rolls| == |BALLOT_SLOTS| && forall roll | roll in rolls :: 0.0 <= roll < 1.0
    ensures IsBallot(out, input, rolls)
  {
    var drawn := DrawSlots(input, BALLOT_SLOTS, rolls);
    out := AddStickies(input, drawn);
  }

  // ---------- a roll draws one campaign ----------

  lemma {:induction false} RankSumNonNegative(i: int, j: int)
    ensures RankSum(i, j) >= 0.0
    decreases j - i
  {
    if i < j { RankSumNonNegative(i, j - 1); }
  }

  lemma PointsNonNegative(h: History, scored: seq<Slug>, slug: Slug)
    ensures Kept(h, scored, slug) >= 0.0
  {
    hide KeepOver, RankSum;
    var i, m := Longer(h.played, scored, Since(h.played, slug)), Tied(h.played, scored, Since(h.played, slug));
    RankSumNonNegative(i, i + m);
    KeepIsBounded(Recent(h.ballots), slug, LastPlayed(h, slug));
    StepPositive(|Recent(h.ballots)|);
    ProductNonNegative(Points(h.played, scored, slug), KeepOver(Recent(h.ballots), slug, LastPlayed(h, slug)));
  }

  lemma {:induction false} StepPositive(n: nat)
    ensures Step(n) > 0.0
  {
    if n > 0 {
      StepPositive(n - 1);
      StepHalves(n - 1);
    }
  }

  lemma ProductNonNegative(a: real, b: real)
    requires 0.0 <= a && 0.0 <= b
    ensures 0.0 <= a * b
  {
  }

  lemma {:induction false} KeptByAllNonNegative(histories: seq<History>, scored: seq<Slug>, slug: Slug)
    ensures KeptByAll(histories, scored, slug) >= 0.0
    decreases |histories|
  {
    hide Kept;
    if histories != [] {
      PointsNonNegative(histories[|histories| - 1], scored, slug);
      KeptByAllNonNegative(histories[..|histories| - 1], scored, slug);
    }
  }

  /** Bumps are never below zero, and so no score is. */
  lemma ScoresNonNegative(input: DrawInput, options: seq<BallotOption>, slot: Category)
    requires ScoredOptions(options, input, slot) && forall slug | slug in input.bumps :: input.bumps[slug] >= 0.0
    ensures forall o | o in options :: Weight(o) >= 0.0
  {
    hide Scored, KeptByAll;
    forall slug | slug in Scored(input, slot) ensures Score(input, Scored(input, slot), slug) >= 0.0 {
      KeptByAllNonNegative(input.histories, Scored(input, slot), slug);
    }
    hide Score;
  }

  lemma SameOptions(input: DrawInput, slot: Category, a: seq<BallotOption>, b: seq<BallotOption>)
    requires ScoredOptions(a, input, slot) && ScoredOptions(b, input, slot)
    ensures a == b
  {
    hide Scored, OptionOf;
  }

  lemma DrawnIsUnique(pool: seq<BallotOption>, roll: real, o: BallotOption, p: BallotOption)
    requires forall q | q in pool :: Weight(q) >= 0.0
    requires DrawnFrom(o, pool, roll) && DrawnFrom(p, pool, roll)
    ensures o == p
  {
    hide Prefix, Weight;
    var i: nat :| IsPick(Weights(pool), roll, i) && pool[i] == o;
    var j: nat :| IsPick(Weights(pool), roll, j) && pool[j] == p;
    PickIsUnique(Weights(pool), roll, i, j);
  }

  /** The same roll over the same scores draws the same campaign: each has its share of the rolls and no other's. */
  lemma DrawIsUnique(input: DrawInput, slot: Category, roll: real, o: BallotOption, p: BallotOption)
    requires forall slug | slug in input.bumps :: input.bumps[slug] >= 0.0
    requires IsDraw(o, input, slot, roll) && IsDraw(p, input, slot, roll)
    ensures o == p
  {
    hide ScoredOptions, Pool, DrawnFrom, SlotTop, Weight;
    var a :| ScoredOptions(a, input, slot) && DrawnFrom(o, Pool(a, SlotTop(slot)), roll);
    var b :| ScoredOptions(b, input, slot) && DrawnFrom(p, Pool(b, SlotTop(slot)), roll);
    SameOptions(input, slot, a, b);
    ScoresNonNegative(input, a, slot);
    var pool := Pool(a, SlotTop(slot));
    PoolHas(a, SlotTop(slot));
    DrawnIsUnique(pool, roll, o, p);
  }

  /** A slot offers a campaign someone played recently only when all of its campaigns are. */
  lemma RecentOnlyAsFallback(o: BallotOption, input: DrawInput, slot: Category, roll: real)
    requires IsDraw(o, input, slot, roll) && RecentBy(input.histories, o.slug) > 0
    ensures forall c | c in input.candidates && c.category == slot :: RecentBy(input.histories, c.slug) > 0
  {
    var options := DrawIsContender(o, input, slot, roll);
    var all := InSlot(input.candidates, slot);
    var unplayed := Fresh(all, input.histories);
    var i :| 0 <= i < |options| && options[i] == o;
    assert o.slug in Scored(input, slot);
    forall c | c in input.candidates && c.category == slot ensures RecentBy(input.histories, c.slug) > 0 {
      assert c == Candidate(c.slug, slot);
      assert RecentBy(input.histories, c.slug) == 0 ==> c.slug in unplayed;
    }
  }

  /** No campaign stands on a ballot twice when each has one category. */
  lemma NoneListedTwice(out: seq<BallotOption>, input: DrawInput, rolls: seq<real>, i: nat, j: nat)
    requires |rolls| == |BALLOT_SLOTS| && IsBallot(out, input, rolls) && i < j < |out|
    requires forall c, d | c in input.candidates && d in input.candidates && c.slug == d.slug ::
      c.category == d.category
    ensures out[i].slug != out[j].slug
  {
    hide *;
    var drawn := |NonEmpty(input, BALLOT_SLOTS)|;
    if j < drawn {
      DrawnOnce(out, input, rolls, i, j);
    } else {
      StickyOnce(out, input, rolls, i, j);
    }
  }

  lemma StickyOnce(out: seq<BallotOption>, input: DrawInput, rolls: seq<real>, i: nat, j: nat)
    requires |rolls| == |BALLOT_SLOTS| && IsBallot(out, input, rolls) && i < j < |out|
    requires |NonEmpty(input, BALLOT_SLOTS)| <= j
    ensures out[i].slug != out[j].slug
  {
    hide NonEmpty, RollsOf, DrawsOf, RecentBy, FirstOf;
  }

  lemma DrawnOnce(out: seq<BallotOption>, input: DrawInput, rolls: seq<real>, i: nat, j: nat)
    requires |rolls| == |BALLOT_SLOTS| && IsBallot(out, input, rolls) && i < j < |NonEmpty(input, BALLOT_SLOTS)|
    requires forall c, d | c in input.candidates && d in input.candidates && c.slug == d.slug ::
      c.category == d.category
    ensures j < |out| && out[i].slug != out[j].slug
  {
    hide NonEmpty, RollsOf, IsDraw, StickiesOf;
    var slots, taken := NonEmpty(input, BALLOT_SLOTS), RollsOf(input, BALLOT_SLOTS, rolls);
    assert out[..|slots|][i] == out[i] && out[..|slots|][j] == out[j];
    DrawIsCandidate(out[i], input, slots[i], taken[i]);
    DrawIsCandidate(out[j], input, slots[j], taken[j]);
    NonEmptyDistinct(input, BALLOT_SLOTS);
  }

  lemma DrawIsCandidate(o: BallotOption, input: DrawInput, slot: Category, roll: real)
    requires IsDraw(o, input, slot, roll)
    ensures Candidate(o.slug, slot) in input.candidates
  {
    var options := DrawIsContender(o, input, slot, roll);
    var i :| 0 <= i < |options| && options[i] == o;
    assert o.slug in Scored(input, slot);
  }

  lemma {:induction false} NonEmptyDistinct(input: DrawInput, slots: seq<Category>)
    requires forall i, j | 0 <= i < j < |slots| :: slots[i] != slots[j]
    ensures forall i | 0 <= i < |NonEmpty(input, slots)| :: NonEmpty(input, slots)[i] in slots
    ensures forall i, j | 0 <= i < j < |NonEmpty(input, slots)| ::
      NonEmpty(input, slots)[i] != NonEmpty(input, slots)[j]
    decreases |slots|
  {
    if slots != [] {
      assert slots == slots[..|slots| - 1] + [slots[|slots| - 1]];
      NonEmptyDistinct(input, slots[..|slots| - 1]);
    }
  }
}
