/**
 What wears off (src/ballot.ts): a player's no-vote showings (ignoredKeep), and
 the bumps of close losses (nextBumps, finishBallot).
 */
module BallotDecay {
  import opened Wrappers
  import opened Seqs
  import opened Sets
  import opened BallotPoints

  // ---------- ignoredKeep ----------

  const IGNORED_LOOKBACK := 8

  /** IGNORED_STEP / 2^k. */
  function Step(k: nat): (r: real)
    ensures 0.0 < r <= 0.5
  {
    if k == 0 then 0.5 else Step(k - 1) / 2.0
  }

  function LastPlayed(h: History, slug: Slug): int {
    var at := Since(h.played, slug);
    if at == |h.played| then 0 else h.played[at].matchId
  }

  /** A ballot since `last` that offered the campaign and gave it no vote. */
  predicate Ignored(b: Shown, slug: Slug, last: int) {
    b.matchId > last && slug in b.options && (slug !in b.votes || b.votes[slug] == 0)
  }

  ghost function KeepOver(ballots: seq<Shown>, slug: Slug, last: int): real {
    if ballots == [] then 1.0
    else
      var n := |ballots| - 1;
      var before := KeepOver(ballots[..n], slug, last);
      if Ignored(ballots[n], slug, last) then before * (1.0 - Step(n)) else before
  }

  method IgnoredKeep(h: History, slug: Slug) returns (keep: real)
    ensures keep == KeepOver(Recent(h.ballots), slug, LastPlayed(h, slug))
    ensures 0.25 < keep <= 1.0
  {
    var ballots := Recent(h.ballots);
    keep := KeepOf(ballots, slug, LastPlayed(h, slug));
    KeepIsBounded(ballots, slug, LastPlayed(h, slug));
  }

  method KeepOf(ballots: seq<Shown>, slug: Slug, last: int) returns (keep: real)
    ensures keep == KeepOver(ballots, slug, last)
  {
    keep := 1.0;
    KeepOverNone(slug, last);
    assert ballots[..0] == [] && ballots[..|ballots|] == ballots;
    hide *;
    for k := 0 to |ballots|
      invariant keep == KeepOver(ballots[..k], slug, last)
    {
      KeepOverOneMore(ballots, k, slug, last);
      if Ignored(ballots[k], slug, last) { keep := keep * (1.0 - Step(k)); }
    }
  }

  lemma KeepOverNone(slug: Slug, last: int)
    ensures KeepOver([], slug, last) == 1.0 && Step(0) == 0.5
  {
  }

  lemma KeepOverOneMore(ballots: seq<Shown>, k: nat, slug: Slug, last: int)
    requires k < |ballots|
    ensures
      var before := KeepOver(ballots[..k], slug, last);
      KeepOver(ballots[..k + 1], slug, last) ==
        if Ignored(ballots[k], slug, last) then before * (1.0 - Step(k)) else before
  {
    assert ballots[..k + 1][..k] == ballots[..k];
    hide Ignored, Step;
  }

  function Recent(ballots: seq<Shown>): seq<Shown> {
    if |ballots| > IGNORED_LOOKBACK then ballots[..IGNORED_LOOKBACK] else ballots
  }

  lemma OneStep(keep: real, e: real)
    requires 0.0 < e <= 0.25 && 0.25 + e <= keep
    ensures 0.25 + e / 2.0 <= keep * (1.0 - e) <= keep
  {
    Product(keep - (0.25 + e), 1.0 - e);
    Product(e, 0.25 - e);
    Product(keep, e);
    assert (0.25 + e) * (1.0 - e) == 0.25 + e / 2.0 + e * (0.25 - e);
  }

  lemma Product(a: real, b: real)
    requires 0.0 <= a && 0.0 <= b
    ensures 0.0 <= a * b
  {
  }

  /** Above a quarter however many ballots ignore it, however far back they are counted. */
  lemma {:induction false} KeepIsBounded(ballots: seq<Shown>, slug: Slug, last: int)
    ensures 0.25 + Step(|ballots|) <= KeepOver(ballots, slug, last) <= 1.0
    decreases |ballots|
  {
    hide *;
    if ballots == [] {
      KeepOverNone(slug, last);
    } else {
      var n := |ballots| - 1;
      assert ballots[..n + 1] == ballots;
      KeepIsBounded(ballots[..n], slug, last);
      KeepOverOneMore(ballots, n, slug, last);
      StepHalves(n);
      if n == 0 {
        KeepOverNone(slug, last);
        assert ballots[..0] == [];
        Halved();
      } else {
        OneStep(KeepOver(ballots[..n], slug, last), Step(n));
      }
    }
  }

  lemma StepHalves(n: nat)
    ensures Step(n + 1) == Step(n) / 2.0 && Step(0) == 0.5 && (n > 0 ==> Step(n) <= 0.25)
  {
  }

  lemma Halved()
    ensures 1.0 * (1.0 - 0.5) == 0.5
  {
  }

  lemma Shrinks(keep: real, e: real)
    requires 0.0 < keep <= 1.0 && 0.0 < e <= 0.5
    ensures keep * (1.0 - e) < 1.0
  {
    assert keep * e > 0.0;
  }

  /** A player's points are whole exactly when no ballot looked at ignored the campaign. */
  lemma {:induction false} WholeIffNeverIgnored(ballots: seq<Shown>, slug: Slug, last: int)
    ensures KeepOver(ballots, slug, last) == 1.0 <==> forall b | b in ballots :: !Ignored(b, slug, last)
    decreases |ballots|
  {
    if ballots != [] {
      var n := |ballots| - 1;
      WholeIffNeverIgnored(ballots[..n], slug, last);
      assert ballots == ballots[..n] + [ballots[n]];
      if Ignored(ballots[n], slug, last) {
        KeepIsBounded(ballots[..n], slug, last);
        Shrinks(KeepOver(ballots[..n], slug, last), Step(n));
      }
    }
  }

  // ---------- nextBumps ----------

  const LOST_VOTE_BUMP := 1.0
  const BUMP_FLOOR := 0.01

  type Bumps = map<Slug, real>
  type Votes = map<Slug, int>

  datatype Tally = Tally(votes: Votes, winner: Slug)

  /** A loser with two or more votes. */
  predicate Renewed(t: Tally, slug: Slug) {
    slug != t.winner && slug in t.votes && t.votes[slug] >= 2
  }

  /** What is left of a standing bump. */
  function Decayed(bumps: Bumps, t: Tally, slug: Slug): real {
    if slug in bumps && slug != t.winner && bumps[slug] / 2.0 >= BUMP_FLOOR then bumps[slug] / 2.0 else 0.0
  }

  predicate Stands(bumps: Bumps, t: Tally, slug: Slug) {
    Decayed(bumps, t, slug) > 0.0 || Renewed(t, slug)
  }

  function BumpOf(bumps: Bumps, t: Tally, slug: Slug): real {
    Decayed(bumps, t, slug) + if Renewed(t, slug) then LOST_VOTE_BUMP else 0.0
  }

  function NextOf(bumps: Bumps, t: Tally): Bumps {
    map slug | slug in bumps.Keys + t.votes.Keys && Stands(bumps, t, slug) :: BumpOf(bumps, t, slug)
  }

  method NextBumps(bumps: Bumps, t: Tally) returns (out: Bumps)
    ensures out == NextOf(bumps, t)
  {
    out := Decay(bumps, t);
    var left := t.votes.Keys;
    while left != {}
      invariant left <= t.votes.Keys
      invariant forall slug :: slug in out <==>
        Decayed(bumps, t, slug) > 0.0 || (slug in t.votes.Keys - left && Renewed(t, slug))
      invariant forall slug | slug in out ::
        out[slug] == if slug in left then Decayed(bumps, t, slug) else BumpOf(bumps, t, slug)
      decreases left
    {
      var slug := Pick(left);
      if slug != t.winner && t.votes[slug] >= 2 {
        out := out[slug := (if slug in out then out[slug] else 0.0) + LOST_VOTE_BUMP];
      }
      left := left - {slug};
    }
  }

  /** The first loop: the standing bumps halve, the winner's goes. */
  method Decay(bumps: Bumps, t: Tally) returns (out: Bumps)
    ensures forall slug :: slug in out <==> Decayed(bumps, t, slug) > 0.0
    ensures forall slug | slug in out :: out[slug] == Decayed(bumps, t, slug)
  {
    out := map[];
    var left := bumps.Keys;
    while left != {}
      invariant left <= bumps.Keys
      invariant forall slug :: slug in out <==> slug in bumps.Keys - left && Decayed(bumps, t, slug) > 0.0
      invariant forall slug | slug in out :: out[slug] == Decayed(bumps, t, slug)
      decreases left
    {
      var slug := Pick(left);
      left := left - {slug};
      if slug == t.winner { continue; }
      var half := bumps[slug] / 2.0;
      if half >= BUMP_FLOOR { out := out[slug := half]; }
    }
  }

  // ---------- over every run of tallies ----------

  ghost predicate Bounded(bumps: Bumps) {
    forall slug | slug in bumps :: BUMP_FLOOR <= bumps[slug] < 2.0
  }

  ghost function After(bumps: Bumps, tallies: seq<Tally>): Bumps {
    if tallies == [] then bumps else NextOf(After(bumps, tallies[..|tallies| - 1]), tallies[|tallies| - 1])
  }

  lemma {:induction false} BumpsStayBounded(bumps: Bumps, tallies: seq<Tally>)
    requires Bounded(bumps)
    ensures Bounded(After(bumps, tallies))
    decreases |tallies|
  {
    if tallies != [] { BumpsStayBounded(bumps, tallies[..|tallies| - 1]); }
  }

  lemma WinnerHoldsNone(bumps: Bumps, tallies: seq<Tally>)
    requires tallies != []
    ensures tallies[|tallies| - 1].winner !in After(bumps, tallies)
  {
  }

  /** Twice the floor of a bump that stood for `n` tallies without being renewed: 2 / 2^n. */
  ghost function Worn(n: nat): real {
    if n == 0 then 2.0 else Worn(n - 1) / 2.0
  }

  lemma {:induction false} BumpWears(bumps: Bumps, tallies: seq<Tally>, slug: Slug)
    requires Bounded(bumps)
    requires forall t | t in tallies :: !Renewed(t, slug)
    ensures slug in After(bumps, tallies) ==> After(bumps, tallies)[slug] < Worn(|tallies|)
    decreases |tallies|
  {
    if tallies != [] {
      var m := |tallies| - 1;
      assert tallies == tallies[..m] + [tallies[m]];
      BumpWears(bumps, tallies[..m], slug);
    }
  }

  /** A bump is gone within eight tallies that do not renew it. */
  lemma GoneWithinEight(bumps: Bumps, before: seq<Tally>, tallies: seq<Tally>, slug: Slug)
    requires Bounded(bumps) && |tallies| >= 8
    requires forall t | t in tallies :: !Renewed(t, slug)
    ensures slug !in After(bumps, before + tallies)
  {
    BumpsStayBounded(bumps, before);
    AfterMore(bumps, before, tallies);
    BumpsStayBounded(After(bumps, before), tallies);
    BumpWears(After(bumps, before), tallies, slug);
    WornUnderFloor(|tallies|);
  }

  lemma {:induction false} WornUnderFloor(n: nat)
    requires n >= 8
    ensures Worn(n) < BUMP_FLOOR
  {
    if n > 8 {
      WornUnderFloor(n - 1);
    } else {
      assert Worn(4) == 0.125;
      assert Worn(8) == 0.0078125;
    }
  }

  lemma {:induction false} AfterMore(bumps: Bumps, a: seq<Tally>, b: seq<Tally>)
    ensures After(bumps, a + b) == After(After(bumps, a), b)
    decreases |b|
  {
    if b == [] {
      assert a + b == a;
    } else {
      assert (a + b)[..|a + b| - 1] == a + b[..|b| - 1];
      AfterMore(bumps, a, b[..|b| - 1]);
    }
  }

  /** Seven tallies are not always enough. */
  lemma SevenAreNotEnough(t: Tally)
    requires t.winner != "x" && t.votes == map[]
    ensures "x" in After(map["x" := 1.99], [t, t, t, t, t, t, t])
  {
    var start: Bumps := map["x" := 1.99];
    var a := [t, t, t];
    AfterThree(start, t);
    AfterThree(After(start, a), t);
    AfterMore(start, a, a);
    AfterMore(start, a + a, [t]);
    assert a + a + [t] == [t, t, t, t, t, t, t];
    assert After(After(start, a + a), [t]) == NextOf(After(start, a + a), t) by {
      assert [t][..0] == [];
    }
  }

  lemma AfterThree(bumps: Bumps, t: Tally)
    requires t.winner != "x" && t.votes == map[] && "x" in bumps && bumps["x"] >= 0.08
    ensures "x" in After(bumps, [t, t, t]) && After(bumps, [t, t, t])["x"] == bumps["x"] / 8.0
  {
    var one, two, three := [t], [t, t], [t, t, t];
    assert three[..2] == two && two[..1] == one && one[..0] == [];
    assert After(bumps, one) == NextOf(bumps, t);
    assert After(bumps, two) == NextOf(After(bumps, one), t);
    assert After(bumps, three) == NextOf(After(bumps, two), t);
  }

  // ---------- finishBallot ----------

  type LobbyId = string

  datatype Drawn = Drawn(votes: Votes, winner: Option<Slug>, matchId: int)
  datatype Finish = Finish(lobby: LobbyId, tally: Tally, matchId: int)

  /** The rows of `ballots` by lobby and of `ballot_bumps` by campaign. */
  datatype Rows = Rows(ballots: map<LobbyId, Drawn>, bumps: Bumps)

  /** A ballot not yet tallied. */
  predicate Waiting(ballots: map<LobbyId, Drawn>, lobby: LobbyId) {
    lobby in ballots && ballots[lobby].winner.None?
  }

  function Finished(rows: Rows, f: Finish): Rows {
    if Waiting(rows.ballots, f.lobby) then
      Rows(rows.ballots[f.lobby := Drawn(f.tally.votes, Some(f.tally.winner), f.matchId)], NextOf(rows.bumps, f.tally))
    else rows
  }

  class BallotTables {
    var ballots: map<LobbyId, Drawn>
    var bumps: Bumps

    ghost function Read(): Rows
      reads this
    {
      Rows(ballots, bumps)
    }

    method FinishBallot(lobby: LobbyId, votes: Votes, winner: Slug, matchId: int)
      modifies this
      ensures Read() == Finished(old(Read()), Finish(lobby, Tally(votes, winner), matchId))
    {
      if !Waiting(ballots, lobby) { return; }
      ballots := ballots[lobby := Drawn(votes, Some(winner), matchId)];
      var next := NextBumps(bumps, Tally(votes, winner));
      bumps := next;
    }
  }

  ghost function FinishAll(rows: Rows, calls: seq<Finish>): Rows {
    if calls == [] then rows else Finished(FinishAll(rows, calls[..|calls| - 1]), calls[|calls| - 1])
  }

  /** The tallies of the calls that found their ballot waiting, in order. */
  ghost function Counted(rows: Rows, calls: seq<Finish>): seq<Tally> {
    if calls == [] then []
    else
      var m := |calls| - 1;
      Counted(rows, calls[..m])
        + if Waiting(FinishAll(rows, calls[..m]).ballots, calls[m].lobby) then [calls[m].tally] else []
  }

  /** How many ballots of a lobby are tallied, 0 or 1. */
  ghost function CallsCounted(rows: Rows, calls: seq<Finish>, lobby: LobbyId): nat {
    if calls == [] then 0
    else
      var m := |calls| - 1;
      CallsCounted(rows, calls[..m], lobby)
        + if calls[m].lobby == lobby && Waiting(FinishAll(rows, calls[..m]).ballots, lobby) then 1 else 0
  }

  lemma OneFinish(rows: Rows, f: Finish, lobby: LobbyId)
    ensures Waiting(Finished(rows, f).ballots, lobby) <==> Waiting(rows.ballots, lobby) && f.lobby != lobby
  {
  }

  /** Repeated and stray calls do not count: the bumps are those of the tallies counted. */
  lemma {:induction false} BumpsOfCounted(rows: Rows, calls: seq<Finish>)
    ensures FinishAll(rows, calls).bumps == After(rows.bumps, Counted(rows, calls))
    decreases |calls|
  {
    hide NextOf, Waiting;
    if calls != [] {
      var m := |calls| - 1;
      BumpsOfCounted(rows, calls[..m]);
      AfterOneMore(rows.bumps, Counted(rows, calls[..m]), calls[m].tally);
    }
  }

  lemma AfterOneMore(bumps: Bumps, tallies: seq<Tally>, t: Tally)
    ensures After(bumps, tallies + [t]) == NextOf(After(bumps, tallies), t) && tallies + [] == tallies
  {
    hide NextOf;
    assert (tallies + [t])[..|tallies|] == tallies;
  }

  /** And a ballot is counted once at most: by the first call for it, if it was waiting. */
  lemma {:induction false} EachBallotCountsOnce(rows: Rows, calls: seq<Finish>, lobby: LobbyId)
    ensures CallsCounted(rows, calls, lobby) ==
      if Waiting(rows.ballots, lobby) && (exists f :: f in calls && f.lobby == lobby) then 1 else 0
    ensures Waiting(FinishAll(rows, calls).ballots, lobby) <==>
      Waiting(rows.ballots, lobby) && !exists f :: f in calls && f.lobby == lobby
    decreases |calls|
  {
    hide NextOf, Finished, Waiting;
    if calls != [] {
      var m := |calls| - 1;
      EachBallotCountsOnce(rows, calls[..m], lobby);
      OneFinish(FinishAll(rows, calls[..m]), calls[m], lobby);
      assert calls == calls[..m] + [calls[m]];
    }
  }
}
