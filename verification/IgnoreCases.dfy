/**
 A database in which an ignore (src/balanceTriage.ts) does fold the balance patch it was aimed at into the
 pending one being triaged: an announced patch merged into the pending one keeps the fingerprint both come to.
 */
module IgnoreCases {
  import opened Wrappers
  import opened Inventories
  import opened PointerForest
  import opened BalanceTables
  import opened BalanceFold
  import opened BalancePatches
  import opened RefingerprintLaws
  import opened RefingerprintAgain
  import opened RefingerprintCases
  import opened BalanceTriage

  /** The same config as with the plugin, in a newer build. */
  const Newer: Inventory := map[Cvar("z_range") := "700", Plugin("", "stats.smx") := "1.3"]

  const Request := IgnoreRequest(1, Some({"stats.smx"}), {}, {})

  /** Balance patch 1 and pending patch 2 differ in the build of a plugin; announced patch 3, which had none,
      was merged into patch 2. */
  function Aimed(): Tables {
    Tables(map[1 := Seen(WithPlugin, Detected, Readable(WithPlugin), Balance, None),
               2 := Seen(Newer, Detected, Readable(Newer), Pending, None),
               3 := Seen(Range, Announced, Readable(Range), Folded, Some(2))],
           map[], map[], map[], {}, None, 0)
  }

  lemma AimedDiffer()
    ensures WithPlugin != Newer && WithPlugin != Range && Newer != Range
    ensures FingerprintOf(WithoutIgnored(WithPlugin, {"stats.smx"}), {}) == Range
    ensures FingerprintOf(WithoutIgnored(Newer, {"stats.smx"}), {}) == Range
    ensures FingerprintOf(WithoutIgnored(Range, {"stats.smx"}), {}) == Range
  {
    var p := Plugin("", "stats.smx");
    assert WithPlugin[p] == "1.2" && Newer[p] == "1.3" && p !in Range;
  }

  lemma OneFoldPointer()
    ensures
      var m: Pointers<PatchId> := map[3 := 2];
      && Acyclic(m) && Root(m, 1) == 1 && Root(m, 2) == 2 && Root(m, 3) == 2
      && !Passes(m, 1, 2) && !Passes(m, 3, 1) && Passes(m, 3, 2)
  {
    var m: Pointers<PatchId> := map[3 := 2];
    RootOfEnd(m, 1);
    RootOfEnd(m, 2);
    RootStep(m, 3);
    PassesStep(m, 1, 2);
    PassesStep(m, 2, 1);
    PassesStep(m, 2, 2);
    PassesStep(m, 3, 1);
    PassesStep(m, 3, 2);
    forall x: PatchId ensures Ends(m, x) {
      if x != 3 { RootOfEnd(m, x); }
    }
  }

  lemma AimedIsConsistent()
    ensures Consistent(Aimed()) && FoldPointers(Aimed().patches) == map[3 := 2]
  {
    hide Acyclic, FingerprintOf, WithoutIgnored, Passes, Root;
    OneFoldPointer();
    var t := Aimed();
    assert FoldPointers(t.patches) == map[3 := 2];
    ThreeDiffer(t.patches);
  }

  lemma ThreeDiffer(ps: Patches)
    requires ps.Keys == {1, 2, 3} && ps[1].fingerprint == Some(WithPlugin)
    requires ps[2].fingerprint == Some(Newer) && ps[3].fingerprint == Some(Range)
    ensures DistinctFingerprints(ps)
  {
    AimedDiffer();
  }

  /** The ignore is let through: the two differ in the plugin alone. */
  lemma AimedIsIgnorable()
    ensures Ignorable(Aimed(), 2, Request) == Ok((1, {"stats.smx"}))
  {
    AimedIsConsistent();
    OneFoldPointer();
    var p := Plugin("", "stats.smx");
    assert WithoutIgnored(WithPlugin, {}) == WithPlugin && WithoutIgnored(Newer, {}) == Newer;
    assert Added(WithPlugin, Newer) == {} && Removed(WithPlugin, Newer) == {} && Changed(WithPlugin, Newer) == {p};
    assert WordedKeys(WithPlugin, Newer, {}) == {p};
    assert p.file in DifferingPlugins(WithPlugin, Newer, {});
    assert DifferingPlugins(WithPlugin, Newer, {}) == {"stats.smx"};
    assert Request.ListsWith({}).ignored == {};
  }

  /** The tables once the plugin is on the list. */
  function Longer(): Tables {
    Aimed().(ignored := {"stats.smx"})
  }

  lemma LongerHashes()
    ensures
      var t := Longer();
      && RowIds(t.patches) == {1, 2} && HashOf(t.patches, 1, Ignoring) == Some(Range)
      && HashOf(t.patches, 2, Ignoring) == Some(Range) && Holds(t.patches, 3, Range)
      && FoldPointers(t.patches) == map[3 := 2] && t.patches.Keys == {1, 2, 3} && Consistent(t)
  {
    AimedIsConsistent();
    AimedDiffer();
  }

  /** Both rows lose their fingerprint to the announced patch. */
  lemma LongerPlan(t: Tables)
    requires t.patches.Keys == {1, 2, 3} && DistinctFingerprints(t.patches) && RowIds(t.patches) == {1, 2}
    requires HashOf(t.patches, 1, Ignoring) == Some(Range) && HashOf(t.patches, 2, Ignoring) == Some(Range)
    requires Holds(t.patches, 3, Range) && FoldPointers(t.patches) == map[3 := 2]
    ensures Keeper(t, Ignoring, Range) == 3
    ensures MergePair(t, Ignoring, (3, 1)) && MergePair(t, Ignoring, (3, 2))
    ensures forall p | p in AllPairs(MergesOf(t, Ignoring)) :: p.0 == 3 && (p.1 == 1 || p.1 == 2)
    ensures Rehashed(t, Ignoring)[3] == t.patches[3]
    ensures Rehashed(t, Ignoring)[1] == t.patches[1].(fingerprint := None)
    ensures Rehashed(t, Ignoring)[2] == t.patches[2].(fingerprint := None)
  {
    HolderKeeps(t, Ignoring, Range, 3);
    OneFoldPointer();
    assert !Blocked(t.patches, 3, 1) && !Blocked(t.patches, 3, 2);
    MergesAreStored(t, Ignoring);
    forall p | p in AllPairs(MergesOf(t, Ignoring)) ensures p.0 == 3 && (p.1 == 1 || p.1 == 2) {
      assert MergePair(t, Ignoring, p);
    }
  }

  const Before: Pointers<PatchId> := map[3 := 2]
  const After: Pointers<PatchId> := map[1 := 2, 3 := 2]

  lemma BothEnd(m: Pointers<PatchId>)
    requires m == Before || m == After
    ensures Root(m, 3) == 2 && Root(m, 2) == 2 && (m == After ==> Root(m, 1) == 2) && !Passes(m, 3, 1)
  {
    RootOfEnd(m, 2);
    RootStep(m, 3);
    if m == After { RootStep(m, 1); }
    PassesStep(m, 2, 1);
    PassesStep(m, 3, 1);
  }

  /** Patch 1 is folded into the end of patch 3, which is patch 2; for patch 2 there is nothing to fold. */
  lemma JoinsTheEnd(u: Tables, p: (PatchId, PatchId))
    requires u.patches.Keys == {1, 2, 3} && p.0 == 3 && (p.1 == 1 || p.1 == 2)
    requires FoldPointers(u.patches) == Before || FoldPointers(u.patches) == After
    ensures FoldPointers(MergedPair(u, p).patches) == if p.1 == 1 then After else FoldPointers(u.patches)
    ensures MergedPair(u, p).patches[2] == u.patches[2]
  {
    BothEnd(FoldPointers(u.patches));
    if p.1 == 1 { FoldOne(u); }
  }

  lemma FoldOne(u: Tables)
    requires u.patches.Keys == {1, 2, 3} && CanFold(u.patches, 1, 3) && Effective(u.patches, 3) == 2
    requires FoldPointers(u.patches) == Before || FoldPointers(u.patches) == After
    ensures FoldPointers(FoldedInto(u, 1, 3).patches) == After && FoldedInto(u, 1, 3).patches[2] == u.patches[2]
  {
    hide CanFold, Effective;
    var v := FoldedInto(u, 1, 3).patches;
    assert v == u.patches[1 := FoldedPatch(u.patches[1], 2)];
    FoldedPointsAt(u.patches, v);
  }

  lemma FoldedPointsAt(ps: Patches, v: Patches)
    requires 1 in ps && v == ps[1 := FoldedPatch(ps[1], 2)]
    requires FoldPointers(ps) == Before || FoldPointers(ps) == After
    ensures FoldPointers(v) == After
  {
    forall x ensures x in FoldPointers(v) <==> x in After {
      if x != 1 { assert x in FoldPointers(v) <==> x in FoldPointers(ps); }
    }
    forall x | x in After ensures FoldPointers(v)[x] == After[x] {
      if x != 1 { assert FoldPointers(v)[x] == FoldPointers(ps)[x]; }
    }
  }

  lemma {:induction false} AllJoinTheEnd(a: Tables, pairs: seq<(PatchId, PatchId)>)
    requires a.patches.Keys == {1, 2, 3} && FoldPointers(a.patches) == Before
    requires forall p | p in pairs :: p.0 == 3 && (p.1 == 1 || p.1 == 2)
    ensures FoldPointers(MergedPairs(a, pairs).patches) == if (3, 1) in pairs then After else Before
    ensures MergedPairs(a, pairs).patches[2] == a.patches[2]
    decreases |pairs|
  {
    if pairs != [] {
      var q, before := pairs[|pairs| - 1], pairs[..|pairs| - 1];
      assert pairs == before + [q];
      AllJoinTheEnd(a, before);
      JoinsTheEnd(MergedPairs(a, before), q);
    }
  }

  /** After the refingerprint patch 1 is folded into patch 2, which has lost its fingerprint. */
  lemma RewrittenIs(t: Tables)
    requires t == Longer()
    ensures DistinctFingerprints(Rehashed(t, Ignoring))
    ensures FoldPointers(Refingerprinted(t, Ignoring).patches) == After
  {
    LongerHashes();
    hide Aimed, Longer, RowIds, HashOf, Keeper, MergePair, Refingerprinted, MergedPairs, MergesOf, AllPairs;
    LongerPlan(t);
    OneHashLeft(t);
    PairIsMerged(t, Ignoring, (3, 1));
    var a, b, c := Stages(t, Ignoring);
    RehashKeepsConsistent(t, Ignoring);
    AllJoinTheEnd(a, AllPairs(MergesOf(t, Ignoring)));
    MergedInOrder(t, Ignoring);
    OnlyTwoIsLeft(b);
    AllSettledStayPut(b, Ignoring, Leftovers(b.patches));
    TriagedChangesTriageOnly(c.patches);
  }

  lemma OneHashLeft(t: Tables)
    requires t.patches.Keys == {1, 2, 3} && Rehashed(t, Ignoring).Keys == t.patches.Keys
    requires Rehashed(t, Ignoring)[1].fingerprint.None? && Rehashed(t, Ignoring)[2].fingerprint.None?
    ensures DistinctFingerprints(Rehashed(t, Ignoring))
  {
    hide Rehashed;
  }

  /** Of these patch 2 alone is left over, and what holds its hash counts for it. */
  lemma OnlyTwoIsLeft(b: Tables)
    requires b.patches.Keys == {1, 2, 3} && FoldPointers(b.patches) == After
    ensures forall l | l in Leftovers(b.patches) :: Settled(b, Ignoring, l)
  {
    hide HashOf;
    BothEnd(After);
    forall l | l in Leftovers(b.patches) ensures Settled(b, Ignoring, l) {
      assert l in LeftoverIds(b.patches);
      assert 1 in FoldPointers(b.patches) && 3 in FoldPointers(b.patches);
      assert l == 2;
      forall h, fp | Holds(b.patches, h, fp) ensures Effective(b.patches, h) == 2 { assert h in b.patches.Keys; }
    }
  }

  /** The ignore goes through, and the balance patch counts for the pending patch that was triaged. */
  lemma TargetCountsForTheTriaged()
    ensures
      var t := Aimed();
      && Consistent(t) && t.patches[1].triage == Balance && t.patches[2].triage == Pending
      && IgnoreSucceeds(t, 2, Request) && Ignorable(t, 2, Request).value.0 == 1
      && Effective(Ignored(t, 2, Request).patches, 1) == 2 == Effective(Ignored(t, 2, Request).patches, 2)
  {
    hide Aimed, Longer, Consistent, Ignorable, DistinctFingerprints, Rehashed, Refingerprinted;
    AimedIsConsistent();
    AimedIsIgnorable();
    AimedIsPending();
    RewrittenIs(Longer());
    BothEnd(After);
    RequestLists();
    NothingToJoin(Refingerprinted(Longer(), Ignoring));
  }

  lemma AimedIsPending()
    ensures 1 in Aimed().patches && Aimed().patches[1].triage == Balance
    ensures 2 in Aimed().patches && Aimed().patches[2].triage == Pending
  {
  }

  lemma RequestLists()
    ensures Request.ListsWith(Aimed().ignored + {"stats.smx"}) == Ignoring && Listed(Aimed(), {"stats.smx"}) == Longer()
  {
  }

  lemma NothingToJoin(v: Tables)
    requires FoldPointers(v.patches) == After
    ensures EndJoined(v, 2, 1) == v
  {
    BothEnd(After);
  }
}
