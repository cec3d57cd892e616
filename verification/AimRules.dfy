/**
 Rule A of src/aimRules.ts: a player's headshot share against the binomial tail
 of the pool's rate. Arithmetic is exact: the source's log space is a guard
 against underflow, so a term is the product it is the exponential of.
 */
module AimRules {
  import opened Wrappers
  import opened Seqs

  function Pow(x: real, n: nat): (r: real)
    ensures 0.0 <= x ==> 0.0 <= r
  {
    if n == 0 then 1.0 else x * Pow(x, n - 1)
  }

  function Clamped(p: real): real {
    if p <= 0.0 then 0.0 else if p >= 1.0 then 1.0 else p
  }

  // ---------- what the tail means ----------

  /** `a` with chance `p`, else `b`. */
  ghost function Mix(p: real, a: real, b: real): real {
    p * a + (1.0 - p) * b
  }

  lemma MixOfSame(p: real, a: real)
    ensures Mix(p, a, a) == a
  {
  }

  lemma Scaled(p: real, a: real, a': real)
    requires 0.0 <= p && a <= a'
    ensures p * a <= p * a'
  {
    assert p * (a' - a) >= 0.0;
  }

  lemma MixGrows(p: real, a: real, a': real, b: real, b': real)
    requires 0.0 <= p <= 1.0 && a <= a' && b <= b'
    ensures Mix(p, a, b) <= Mix(p, a', b')
  {
    hide Mix;
    MixIs(p, 1.0 - p, a, b);
    MixIs(p, 1.0 - p, a', b');
    Weighed(p, 1.0 - p, a, a', b, b', Mix(p, a, b), Mix(p, a', b'));
  }

  lemma MixIs(p: real, q: real, a: real, b: real)
    requires q == 1.0 - p
    ensures Mix(p, a, b) == p * a + q * b
  {
  }

  lemma Weighed(p: real, q: real, a: real, a': real, b: real, b': real, mix: real, mix': real)
    requires 0.0 <= p && 0.0 <= q && a <= a' && b <= b'
    requires mix == p * a + q * b && mix' == p * a' + q * b'
    ensures mix <= mix'
  {
    Scaled(p, a, a');
    Scaled(q, b, b');
  }

  lemma MixLeansToTheLarger(p: real, p': real, a: real, b: real)
    requires p <= p' && b <= a
    ensures Mix(p, a, b) <= Mix(p', a, b)
  {
    Scaled(a - b, p, p');
    assert Mix(p, a, b) == (a - b) * p + b && Mix(p', a, b) == (a - b) * p' + b;
  }

  /** The chance of at least `k` successes in `n` independent trials, trial by trial. */
  ghost function AtLeast(k: int, n: nat, p: real): real
    decreases n
  {
    if n == 0 then (if k <= 0 then 1.0 else 0.0)
    else Mix(p, AtLeast(k - 1, n - 1, p), AtLeast(k, n - 1, p))
  }

  lemma {:induction false} AtLeastNoneIsSure(k: int, n: nat, p: real)
    requires k <= 0
    ensures AtLeast(k, n, p) == 1.0
    decreases n
  {
    if n > 0 {
      AtLeastNoneIsSure(k - 1, n - 1, p);
      AtLeastNoneIsSure(k, n - 1, p);
    }
  }

  lemma {:induction false} MoreThanAllIsNever(k: int, n: nat, p: real)
    requires k > n
    ensures AtLeast(k, n, p) == 0.0
    decreases n
  {
    if n > 0 {
      MoreThanAllIsNever(k - 1, n - 1, p);
      MoreThanAllIsNever(k, n - 1, p);
    }
  }

  lemma {:induction false} SureTrials(k: int, n: nat)
    ensures AtLeast(k, n, 0.0) == (if k <= 0 then 1.0 else 0.0)
    ensures AtLeast(k, n, 1.0) == (if k <= n then 1.0 else 0.0)
    decreases n
  {
    if n > 0 {
      SureTrials(k - 1, n - 1);
      SureTrials(k, n - 1);
    }
  }

  lemma {:induction false} TailIsAChance(k: int, n: nat, p: real)
    requires 0.0 <= p <= 1.0
    ensures 0.0 <= AtLeast(k + 1, n, p) <= AtLeast(k, n, p) <= 1.0
    decreases n
  {
    if n > 0 {
      TailIsAChance(k - 1, n - 1, p);
      TailIsAChance(k, n - 1, p);
      hide Mix;
      var x, y, z := AtLeast(k - 1, n - 1, p), AtLeast(k, n - 1, p), AtLeast(k + 1, n - 1, p);
      MixGrows(p, y, x, z, y);
      MixGrows(p, 0.0, y, 0.0, z);
      MixOfSame(p, 0.0);
      MixGrows(p, x, 1.0, y, 1.0);
      MixOfSame(p, 1.0);
    }
  }

  lemma {:induction false} FewerWantedIsLikelier(k: int, k': int, n: nat, p: real)
    requires k <= k' && 0.0 <= p <= 1.0
    ensures AtLeast(k', n, p) <= AtLeast(k, n, p)
    decreases k' - k
  {
    if k < k' {
      TailIsAChance(k, n, p);
      FewerWantedIsLikelier(k + 1, k', n, p);
    }
  }

  lemma {:induction false} HigherRateIsLikelier(k: int, n: nat, p: real, p': real)
    requires 0.0 <= p <= p' <= 1.0
    ensures AtLeast(k, n, p) <= AtLeast(k, n, p')
    decreases n
  {
    if n > 0 {
      HigherRateIsLikelier(k - 1, n - 1, p, p');
      HigherRateIsLikelier(k, n - 1, p, p');
      TailIsAChance(k - 1, n - 1, p);
      var a, b := AtLeast(k - 1, n - 1, p), AtLeast(k, n - 1, p);
      hide Mix;
      MixLeansToTheLarger(p, p', a, b);
      MixGrows(p', a, AtLeast(k - 1, n - 1, p'), b, AtLeast(k, n - 1, p'));
    }
  }

  // ---------- the sum of terms ----------

  /** The binomial coefficient, by Pascal's rule. */
  ghost function Choose(n: nat, i: nat): nat {
    if i == 0 then 1 else if n == 0 then 0 else Choose(n - 1, i - 1) + Choose(n - 1, i)
  }

  /** `C(n, i) p^i (1 - p)^(n - i)`. */
  ghost function Term(n: nat, i: int, p: real): real {
    if 0 <= i <= n then Choose(n, i) as real * Pow(p, i) * Pow(1.0 - p, n - i) else 0.0
  }

  ghost function Terms(n: nat, from: int, end: int, p: real): real
    decreases end - from
  {
    if end <= from then 0.0 else Terms(n, from, end - 1, p) + Term(n, end - 1, p)
  }

  lemma {:induction false} ChooseTooMany(n: nat, i: nat)
    requires i > n
    ensures Choose(n, i) == 0
    decreases n
  {
    if n > 0 {
      ChooseTooMany(n - 1, i - 1);
      ChooseTooMany(n - 1, i);
    }
  }

  /** The step of the running coefficient. */
  lemma {:induction false} NextCoefficient(n: nat, i: nat)
    requires 1 <= i <= n + 1
    ensures i * Choose(n, i) == (n - i + 1) * Choose(n, i - 1)
    decreases n
  {
    if i == n + 1 {
      ChooseTooMany(n, i);
    } else {
      NextCoefficient(n - 1, i);
      var c, d := Choose(n - 1, i - 1), Choose(n - 1, i);
      if i > 1 {
        NextCoefficient(n - 1, i - 1);
        PascalStep(n, i, Choose(n - 1, i - 2), c, d);
      } else {
        PascalStep(n, i, 0, c, d);
      }
    }
  }

  lemma PascalStep(n: int, i: int, b: int, c: int, d: int)
    requires i * d == (n - i) * c && (i - 1) * c == (n - i + 1) * b
    ensures i * (c + d) == (n - i + 1) * (b + c)
  {
    assert i * (c + d) == i * c + i * d == n * c;
    assert (n - i + 1) * (b + c) == (n - i + 1) * b + (n - i + 1) * c == n * c;
  }

  /** One more trial: the last one succeeds or fails. */
  lemma TermOfOneMore(n: nat, i: int, p: real)
    ensures Term(n + 1, i, p) == Mix(p, Term(n, i - 1, p), Term(n, i, p))
  {
    if i == 0 {
      TermWithout(n, p);
    } else if i == n + 1 {
      TermOfAll(n, p);
    } else if 0 < i <= n {
      TermOfSome(n, i, p);
    }
  }

  lemma TermWithout(n: nat, p: real)
    ensures Term(n + 1, 0, p) == Mix(p, Term(n, -1, p), Term(n, 0, p))
  {
    assert Choose(n + 1, 0) == Choose(n, 0) == 1;
    assert Pow(p, 0) == 1.0 && Pow(1.0 - p, n + 1) == (1.0 - p) * Pow(1.0 - p, n);
    hide Pow, Choose;
  }

  lemma TermOfAll(n: nat, p: real)
    ensures Term(n + 1, n + 1, p) == Mix(p, Term(n, n, p), Term(n, n + 1, p))
  {
    ChooseTooMany(n, n + 1);
    assert Choose(n + 1, n + 1) == Choose(n, n);
    assert Pow(1.0 - p, 0) == 1.0 && Pow(p, n + 1) == p * Pow(p, n);
    hide Pow, Choose;
    Moved(Choose(n, n) as real, p, Pow(p, n), 1.0);
  }

  lemma TermOfSome(n: nat, i: int, p: real)
    requires 0 < i <= n
    ensures Term(n + 1, i, p) == Mix(p, Term(n, i - 1, p), Term(n, i, p))
  {
    hide Choose, Pow, Mix;
    var q := 1.0 - p;
    ChooseOneMore(n, i);
    PowOneMore(p, i);
    PowOneMore(q, n + 1 - i);
    var c, a, b := Choose(n + 1, i) as real, Choose(n, i - 1) as real, Choose(n, i) as real;
    var w, v, x, y := Pow(p, i - 1), Pow(q, n - i), Pow(p, i), Pow(q, n + 1 - i);
    Times(c, a, b, w, v, p, x, y);
    assert Term(n + 1, i, p) == c * x * y;
    assert Term(n, i - 1, p) == a * w * y;
    assert Term(n, i, p) == b * x * v;
  }

  lemma ChooseOneMore(n: nat, i: int)
    requires 0 < i <= n
    ensures Choose(n + 1, i) as real == Choose(n, i - 1) as real + Choose(n, i) as real
  {
  }

  lemma PowOneMore(x: real, n: int)
    requires n > 0
    ensures Pow(x, n) == x * Pow(x, n - 1)
  {
  }

  lemma Times(c: real, a: real, b: real, w: real, v: real, p: real, x: real, y: real)
    requires c == a + b && x == p * w && y == (1.0 - p) * v
    ensures c * x * y == Mix(p, a * w * y, b * x * v)
  {
    var q := 1.0 - p;
    assert c * x * y == a * x * y + b * x * y;
    Moved(a, p, w, y);
    Moved(b * x, q, v, 1.0);
  }

  lemma Moved(a: real, p: real, w: real, y: real)
    ensures a * (p * w) * y == p * (a * w * y)
  {
  }

  lemma {:induction false} TermsOfOneMore(n: nat, from: int, end: int, p: real)
    ensures Terms(n + 1, from, end, p) == Mix(p, Terms(n, from - 1, end - 1, p), Terms(n, from, end, p))
    decreases end - from
  {
    hide Mix, Term;
    if end > from {
      TermsOfOneMore(n, from, end - 1, p);
      TermOfOneMore(n, end - 1, p);
      MixOfSums(p, Terms(n, from - 1, end - 2, p), Term(n, end - 2, p), Terms(n, from, end - 1, p),
                Term(n, end - 1, p));
    } else {
      MixOfSame(p, 0.0);
    }
  }

  lemma MixOfSums(p: real, a: real, a': real, b: real, b': real)
    ensures Mix(p, a + a', b + b') == Mix(p, a, b) + Mix(p, a', b')
  {
  }

  /** The terms of `k` successes and more add up to the chance of at least `k`. */
  lemma {:induction false} TermsAreTheTail(k: int, n: nat, p: real)
    requires k <= n + 1
    ensures Terms(n, k, n + 1, p) == AtLeast(k, n, p)
    decreases n
  {
    if n == 0 {
      NoTrialTerms(k, p);
    } else {
      TermsOfOneMore(n - 1, k, n + 1, p);
      TermsAreTheTail(k - 1, n - 1, p);
      if k == n + 1 {
        MoreThanAllIsNever(k, n - 1, p);
      } else {
        TermsAreTheTail(k, n - 1, p);
        assert Terms(n - 1, k, n + 1, p) == Terms(n - 1, k, n, p) + Term(n - 1, n, p);
      }
    }
  }

  lemma {:induction false} NoTrialTerms(k: int, p: real)
    requires k <= 1
    ensures Terms(0, k, 1, p) == if k <= 0 then 1.0 else 0.0
  {
    if k <= 0 {
      NoneBelow(k, 0, p);
      assert Terms(0, k, 1, p) == Terms(0, k, 0, p) + Term(0, 0, p);
    }
  }

  lemma {:induction false} NoneBelow(from: int, end: int, p: real)
    requires end <= 0
    ensures Terms(0, from, end, p) == 0.0
    decreases end - from
  {
    if end > from { NoneBelow(from, end - 1, p); }
  }

  // ---------- binomialTail ----------

  /** The running coefficient gives every term its binomial coefficient, and the cap at 1 never binds. */
  method BinomialTail(k: int, n: nat, p: real) returns (tail: real)
    ensures tail == AtLeast(k, n, Clamped(p))
  {
    SureTrials(k, n);
    if k <= 0 { AtLeastNoneIsSure(k, n, Clamped(p)); return 1.0; }
    if k > n { MoreThanAllIsNever(k, n, Clamped(p)); return 0.0; }
    if p <= 0.0 { return 0.0; }
    if p >= 1.0 { return 1.0; }
    var sum := SumTerms(k, n, p);
    TermsAreTheTail(k, n, p);
    TailIsAChance(k, n, p);
    tail := if sum < 1.0 then sum else 1.0;
  }

  method SumTerms(k: int, n: nat, p: real) returns (sum: real)
    requires 0 < k
    ensures sum == Terms(n, k, n + 1, p)
  {
    hide *;
    var q := 1.0 - p;
    var c := 1.0;
    sum := 0.0;
    TermsStart(n, k, p);
    for i := 0 to n + 1
      invariant c == Choose(n, if i > 0 then i - 1 else 0) as real
      invariant sum == Terms(n, k, i, p)
    {
      if i > 0 {
        NextCoefficient(n, i);
        Quotient(Choose(n, i - 1), Choose(n, i), n, i);
        c := Next(c, n, i);
      }
      TermsStep(n, k, i, p);
      if i >= k { sum := sum + c * Pow(p, i) * Pow(q, n - i); }
    }
  }

  lemma TermsStart(n: nat, k: int, p: real)
    requires 0 < k
    ensures Choose(n, 0) == 1 && Terms(n, k, 0, p) == 0.0
  {
  }

  lemma TermsStep(n: nat, k: int, i: nat, p: real)
    requires i <= n
    ensures Terms(n, k, i + 1, p) ==
      if i >= k then Terms(n, k, i, p) + Choose(n, i) as real * Pow(p, i) * Pow(1.0 - p, n - i) else Terms(n, k, i, p)
  {
    hide Choose, Pow;
  }

  /** The source adds `log(n - i + 1) - log(i)` to the coefficient's log. */
  function Next(c: real, n: nat, i: nat): real
    requires i > 0
  {
    c * (n - i + 1) as real / i as real
  }

  lemma Quotient(a: nat, b: nat, n: nat, i: nat)
    requires 1 <= i <= n && i * b == (n - i + 1) * a
    ensures Next(a as real, n, i) == b as real
  {
    assert (i * b) as real == i as real * b as real;
    assert ((n - i + 1) * a) as real == (n - i + 1) as real * a as real;
    Divided(i as real, b as real);
  }

  lemma Divided(i: real, b: real)
    requires i > 0.0
    ensures (i * b) / i == b
  {
  }

  // ---------- rule A ----------

  const HS_MIN_KILLS := 10
  const HS_MAX_P := 0.001

  datatype HsGroup = HsGroup(name: string, weapons: seq<string>, fallback: Option<real>, enabled: bool)
  datatype PooledRate = PooledRate(rate: real, poolKills: nat, pooled: bool)
  datatype Kill = Kill(weapon: string, headshot: bool)
  datatype HsResult = HsResult(group: string, kills: nat, headshots: nat, p: real, pool: PooledRate)

  const HS_GROUPS: seq<HsGroup> := [
    HsGroup("auto", ["smg", "pistol", "dual_pistols"], Some(0.367), true),
    HsGroup("rifle", ["hunting_rifle"], None, false)
  ]

  function Bare(weapon: string): string {
    if "weapon_" <= weapon then weapon[|"weapon_"|..] else weapon
  }

  function GroupOf(weapon: string): Option<HsGroup> {
    if Bare(weapon) in HS_GROUPS[0].weapons then Some(HS_GROUPS[0])
    else if Bare(weapon) in HS_GROUPS[1].weapons then Some(HS_GROUPS[1])
    else None
  }

  function Mine(kills: seq<Kill>, g: HsGroup): seq<Kill> {
    if kills == [] then []
    else if GroupOf(kills[0].weapon) == Some(g) then [kills[0]] + Mine(kills[1..], g)
    else Mine(kills[1..], g)
  }

  function Headshots(kills: seq<Kill>): (n: nat) {
    if kills == [] then 0 else (if kills[0].headshot then 1 else 0) + Headshots(kills[1..])
  }

  /** The group is on, has the kills and a rate, and so many headshots are less likely than HS_MAX_P. */
  ghost predicate Fires(kills: seq<Kill>, g: HsGroup, rate: Option<PooledRate>) {
    var mine := Mine(kills, g);
    && g.enabled && |mine| >= HS_MIN_KILLS && rate.Some?
    && AtLeast(Headshots(mine), |mine|, Clamped(rate.value.rate)) < HS_MAX_P
  }

  ghost function Finding(kills: seq<Kill>, g: HsGroup, rate: PooledRate): HsResult {
    var mine := Mine(kills, g);
    HsResult(g.name, |mine|, Headshots(mine), AtLeast(Headshots(mine), |mine|, Clamped(rate.rate)), rate)
  }

  method HsShare(kills: seq<Kill>, rateOf: HsGroup -> Option<PooledRate>) returns (out: seq<HsResult>)
    ensures forall g | g in HS_GROUPS && Fires(kills, g, rateOf(g)) :: Finding(kills, g, rateOf(g).value) in out
    ensures forall r | r in out ::
      exists g :: g in HS_GROUPS && Fires(kills, g, rateOf(g)) && r == Finding(kills, g, rateOf(g).value)
  {
    out := [];
    for i := 0 to |HS_GROUPS|
      invariant forall g | g in HS_GROUPS[..i] && Fires(kills, g, rateOf(g)) ::
        Finding(kills, g, rateOf(g).value) in out
      invariant forall r | r in out ::
        exists g :: g in HS_GROUPS && Fires(kills, g, rateOf(g)) && r == Finding(kills, g, rateOf(g).value)
    {
      TakeOneMore(HS_GROUPS, i);
      var g := HS_GROUPS[i];
      if !g.enabled { continue; }
      var mine := Mine(kills, g);
      if |mine| < HS_MIN_KILLS { continue; }
      var rate := rateOf(g);
      if rate.None? { continue; }
      var p := BinomialTail(Headshots(mine), |mine|, rate.value.rate);
      if p < HS_MAX_P {
        out := out + [HsResult(g.name, |mine|, Headshots(mine), p, rate.value)];
      }
    }
  }

  /** The same kills, with at least the headshots. */
  ghost predicate AtLeastAsMany(kills: seq<Kill>, more: seq<Kill>) {
    |kills| == |more| && forall i | 0 <= i < |kills| ::
      kills[i].weapon == more[i].weapon && (kills[i].headshot ==> more[i].headshot)
  }

  lemma {:induction false} MoreHeadshots(kills: seq<Kill>, more: seq<Kill>, g: HsGroup)
    requires AtLeastAsMany(kills, more)
    ensures |Mine(kills, g)| == |Mine(more, g)|
    ensures Headshots(Mine(kills, g)) <= Headshots(Mine(more, g))
    decreases |kills|
  {
    if kills != [] {
      assert AtLeastAsMany(kills[1..], more[1..]) by {
        forall i | 0 <= i < |kills| - 1
          ensures kills[1..][i].weapon == more[1..][i].weapon && (kills[1..][i].headshot ==> more[1..][i].headshot)
        {
          assert kills[1..][i] == kills[i + 1] && more[1..][i] == more[i + 1];
        }
      }
      MoreHeadshots(kills[1..], more[1..], g);
      if GroupOf(kills[0].weapon) == Some(g) {
        var mine, moreMine := Mine(kills, g), Mine(more, g);
        assert mine[0] == kills[0] && mine[1..] == Mine(kills[1..], g);
        assert moreMine[0] == more[0] && moreMine[1..] == Mine(more[1..], g);
      }
    }
  }

  /** A hit survives more headshots and a lower pool rate. */
  lemma HitSurvives(kills: seq<Kill>, more: seq<Kill>, g: HsGroup, rate: PooledRate, lower: PooledRate)
    requires AtLeastAsMany(kills, more) && lower.rate <= rate.rate
    requires Fires(kills, g, Some(rate))
    ensures Fires(more, g, Some(lower))
  {
    MoreHeadshots(kills, more, g);
    var n, p, p' := |Mine(kills, g)|, Clamped(rate.rate), Clamped(lower.rate);
    var k, k' := Headshots(Mine(kills, g)), Headshots(Mine(more, g));
    FewerWantedIsLikelier(k, k', n, p);
    HigherRateIsLikelier(k', n, p', p);
  }

  // ---------- which kills count ----------

  /** A weapon as the dump or as the game names it. */
  predicate OfGroup(weapon: string, g: HsGroup) {
    weapon in g.weapons || exists name | name in g.weapons :: weapon == "weapon_" + name
  }

  ghost function KillsOf(kills: seq<Kill>, g: HsGroup): set<nat> {
    set i | 0 <= i < |kills| && OfGroup(kills[i].weapon, g)
  }

  ghost function HeadshotsOf(kills: seq<Kill>, g: HsGroup): set<nat> {
    set i | 0 <= i < |kills| && OfGroup(kills[i].weapon, g) && kills[i].headshot
  }

  lemma BareIs(weapon: string, name: string)
    requires !("weapon_" <= name)
    ensures Bare(weapon) == name <==> weapon == name || weapon == "weapon_" + name
  {
    if "weapon_" <= weapon { assert weapon == "weapon_" + weapon[|"weapon_"|..]; }
    if weapon == "weapon_" + name { assert weapon[|"weapon_"|..] == name; }
  }

  lemma NamesAreBare()
    ensures forall g | g in HS_GROUPS :: forall name | name in g.weapons :: !("weapon_" <= name)
  {
    forall g, name | g in HS_GROUPS && name in g.weapons ensures !("weapon_" <= name) {
      assert "weapon_"[0] == 'w';
      assert g == HS_GROUPS[0] || g == HS_GROUPS[1];
      assert name in ["smg", "pistol", "dual_pistols", "hunting_rifle"];
    }
  }

  lemma GroupIs(weapon: string, g: HsGroup)
    requires g in HS_GROUPS
    ensures GroupOf(weapon) == Some(g) <==> OfGroup(weapon, g)
  {
    NamesAreBare();
    forall name | name in g.weapons ensures Bare(weapon) == name <==> weapon == name || weapon == "weapon_" + name {
      BareIs(weapon, name);
    }
    InOneGroup(Bare(weapon));
    hide Bare;
    assert g == HS_GROUPS[0] || g == HS_GROUPS[1];
  }

  lemma InOneGroup(name: string)
    ensures !(name in HS_GROUPS[0].weapons && name in HS_GROUPS[1].weapons)
    ensures HS_GROUPS[0] != HS_GROUPS[1]
  {
    assert |"hunting_rifle"| == 13;
  }

  lemma {:induction false} MineCounts(kills: seq<Kill>, g: HsGroup)
    requires g in HS_GROUPS
    ensures |Mine(kills, g)| == |KillsOf(kills, g)| && Headshots(Mine(kills, g)) == |HeadshotsOf(kills, g)|
    decreases |kills|
  {
    hide OfGroup, GroupOf;
    if kills != [] {
      var rest := kills[1..];
      MineCounts(rest, g);
      GroupIs(kills[0].weapon, g);
      ShiftCounts(kills, g);
      if OfGroup(kills[0].weapon, g) { assert Mine(kills, g)[1..] == Mine(rest, g); }
    }
  }

  lemma Shifted(a: set<nat>, b: set<nat>, zero: bool)
    requires forall i: nat :: i in a <==> (i == 0 && zero) || (i > 0 && i - 1 in b)
    ensures |a| == |b| + if zero then 1 else 0
    decreases |b|
  {
    if b == {} {
      assert a == if zero then {0} else {};
    } else {
      var x :| x in b;
      Shifted(a - {x + 1}, b - {x}, zero);
    }
  }

  lemma ShiftCounts(kills: seq<Kill>, g: HsGroup)
    requires kills != []
    ensures |KillsOf(kills, g)| == |KillsOf(kills[1..], g)| + if OfGroup(kills[0].weapon, g) then 1 else 0
    ensures |HeadshotsOf(kills, g)| ==
      |HeadshotsOf(kills[1..], g)| + if OfGroup(kills[0].weapon, g) && kills[0].headshot then 1 else 0
  {
    hide OfGroup;
    Shifted(KillsOf(kills, g), KillsOf(kills[1..], g), OfGroup(kills[0].weapon, g));
    Shifted(HeadshotsOf(kills, g), HeadshotsOf(kills[1..], g), OfGroup(kills[0].weapon, g) && kills[0].headshot);
  }

  /**
   A group is found exactly when it is the automatic weapons', at least ten kills were theirs, the pool has a rate,
   and so many of them being headshots at that rate is less likely than one in a thousand.
   */
  lemma FiresIff(kills: seq<Kill>, g: HsGroup, rate: Option<PooledRate>)
    requires g in HS_GROUPS
    ensures Fires(kills, g, rate) <==>
      && g.name == "auto" && |KillsOf(kills, g)| >= 10 && rate.Some?
      && AtLeast(|HeadshotsOf(kills, g)|, |KillsOf(kills, g)|, Clamped(rate.value.rate)) < 0.001
  {
    MineCounts(kills, g);
    assert g == HS_GROUPS[0] || g == HS_GROUPS[1];
    assert g.enabled <==> g.name == "auto" by { assert "auto"[0] != "rifle"[0]; }
    hide AtLeast, Mine, Headshots, KillsOf, HeadshotsOf;
  }
}
