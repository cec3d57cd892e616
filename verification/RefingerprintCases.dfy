/** Two tables a refingerprint meets outside the conditions of RefingerprintLaws. */
module RefingerprintCases {
  import opened Wrappers
  import opened Inventories
  import opened PointerForest
  import opened BalanceTables
  import opened BalancePatches
  import opened RefingerprintLaws
  import opened RefingerprintAgain

  const Range: Inventory := map[Cvar("z_range") := "700"]
  const Wider: Inventory := map[Cvar("z_range") := "750"]

  /** The same config with a plugin that is ignored from now on. */
  const WithPlugin: Inventory := map[Cvar("z_range") := "700", Plugin("", "stats.smx") := "1.2"]

  const Ignoring := Lists({}, {"stats.smx"})

  lemma TheyHash()
    ensures FingerprintOf(WithoutIgnored(Range, {"stats.smx"}), {}) == Range
    ensures FingerprintOf(WithoutIgnored(WithPlugin, {"stats.smx"}), {}) == Range
  {
  }

  function Seen(fingerprint: Inventory, source: Source, inputs: Stored, triage: Triage, into: Option<PatchId>): Patch {
    Patch(Some(fingerprint), source, "", "", Some(inputs), 0, triage, into, None, None, None)
  }

  function Alone(patches: Patches): Tables {
    Tables(patches, map[], map[], map[], {"stats.smx"}, None, 0)
  }

  // ---------- the unique key trips ----------

  /** Patch 1's inputs no longer read back; patch 2 had the plugin, and without it has patch 1's fingerprint. */
  function Clashing(): Tables {
    Alone(map[1 := Seen(Range, Detected, Unreadable, Balance, None),
              2 := Seen(WithPlugin, Detected, Readable(WithPlugin), Balance, None)])
  }

  lemma ClashingIsConsistent()
    ensures Consistent(Clashing()) && FoldPointers(Clashing().patches) == map[]
  {
    var t := Clashing();
    assert FoldPointers(t.patches) == map[];
    forall x: PatchId ensures Ends(FoldPointers(t.patches), x) { RootOfEnd(FoldPointers(t.patches), x); }
    assert Plugin("", "stats.smx") in WithPlugin && Plugin("", "stats.smx") !in Range;
  }

  lemma NoFoldBlocksNothing(ps: Patches)
    requires FoldPointers(ps) == map[]
    ensures forall x, y :: !Blocked(ps, x, y)
  {
    forall x, y { PassesStep(FoldPointers(ps), x, y); }
  }

  lemma ClashingHashes()
    ensures
      var ps := Clashing().patches;
      && HashOf(ps, 1, Ignoring) == None && HashOf(ps, 2, Ignoring) == Some(Range)
      && RowIds(ps) == {1, 2} && Holds(ps, 1, Range) && Published(ps) == {} && 2 in BalanceRows(ps)
  {
    TheyHash();
  }

  /** The only member of a group keeps the hash, when another row holds it. */
  lemma OnlyMemberKeeps(t: Tables, lists: Lists, fp: Fingerprint, x: PatchId, y: PatchId)
    requires DistinctFingerprints(t.patches) && Holds(t.patches, x, fp) && x in RowIds(t.patches) && t.rollout.None?
    requires Planned(t, lists, y) && HashOf(t.patches, y, lists) == Some(fp)
    requires forall z | z in RowIds(t.patches) && HashOf(t.patches, z, lists) == Some(fp) :: z == y
    ensures Keeper(t, lists, fp) == y
  {
    HolderIs(t.patches, x, fp);
    assert y in Rows(t.patches);
    assert y in Group(t, lists, fp) && forall z | z in Group(t, lists, fp) :: z == y;
  }

  /** A state of the invariant in which the refingerprint throws and changes nothing. */
  lemma UnreadableRowClashes()
    ensures Consistent(Clashing()) && !DistinctFingerprints(Rehashed(Clashing(), Ignoring))
  {
    var t := Clashing();
    ClashingIsConsistent();
    ClashingHashes();
    NoFoldBlocksNothing(t.patches);
    hide Clashing, FingerprintOf, WithoutIgnored, HashOf, Blocked, Rehashed, DistinctFingerprints, Published;
    hide BalanceRows;
    assert Planned(t, Ignoring, 2);
    OnlyMemberKeeps(t, Ignoring, Range, 1, 2);
    assert LeftAsItIs(t, Ignoring, 1);
    assert Takes(t, Ignoring, 2, Range);
    ThrowsExactlyOnClash(t, Ignoring);
  }

  // ---------- a keeper that is folded ----------

  /** Every member of a group that is not its keeper and would not loop is merged. */
  lemma {:induction false} MembersAreMerged(t: Tables, lists: Lists, hashes: seq<Fingerprint>, p: (PatchId, PatchId))
    requires MergePair(t, lists, p) && HashOf(t.patches, p.1, lists).value in hashes
    ensures p in AllPairs(Merges(t, lists, hashes))
    decreases |hashes|
  {
    var fp := HashOf(t.patches, p.1, lists).value;
    var last, before := hashes[|hashes| - 1], hashes[..|hashes| - 1];
    assert hashes == before + [last];
    var m, merged := GroupMerge(t, lists, last), Merges(t, lists, before);
    AllPairsAppend(merged, m);
    if fp == last {
      assert p.1 in Rows(t.patches);
      assert p.1 in Group(t, lists, fp);
      PairsHold(m.keep, m.into, p.1);
    } else {
      MembersAreMerged(t, lists, before, p);
    }
  }

  lemma {:induction false} PairsHold(keep: PatchId, into: seq<PatchId>, x: PatchId)
    requires x in into
    ensures (keep, x) in Pairs(keep, into)
  {
    assert into == into[..|into| - 1] + [into[|into| - 1]];
    if x != into[|into| - 1] { PairsHold(keep, into[..|into| - 1], x); }
  }

  /** Announced patch 2 is folded into patch 1; patch 3 had the plugin, and without it has patch 2's fingerprint. */
  function KeeperFolded(): Tables {
    Alone(map[1 := Seen(Wider, Announced, Readable(Wider), Balance, None),
              2 := Seen(Range, Announced, Readable(Range), Folded, Some(1)),
              3 := Seen(WithPlugin, Detected, Readable(WithPlugin), Pending, None)])
  }

  lemma OneFoldEnds()
    ensures Acyclic<PatchId>(map[2 := 1])
  {
    var m: Pointers<PatchId> := map[2 := 1];
    RootOfEnd(m, 1);
    RootStep(m, 2);
    forall x: PatchId ensures Ends(m, x) {
      if x != 2 { RootOfEnd(m, x); }
    }
  }

  lemma KeeperFoldedIsConsistent()
    ensures Consistent(KeeperFolded()) && FoldPointers(KeeperFolded().patches) == map[2 := 1]
  {
    OneFoldEnds();
    assert FoldPointers(KeeperFolded().patches) == map[2 := 1];
    hide Acyclic;
    assert Range != Wider by { assert Range[Cvar("z_range")] != Wider[Cvar("z_range")]; }
    assert Plugin("", "stats.smx") in WithPlugin && Plugin("", "stats.smx") !in Range;
    assert Plugin("", "stats.smx") !in Wider;
  }

  /** The merged patch does not count for the keeper it is reported to be merged into. */
  lemma MergedPastItsKeeper()
    ensures
      var t := KeeperFolded();
      && Consistent(t) && DistinctFingerprints(Rehashed(t, Ignoring))
      && (2, 3) in AllPairs(MergesOf(t, Ignoring)) && Effective(Refingerprinted(t, Ignoring).patches, 3) != 2
  {
    var t := KeeperFolded();
    KeeperFoldedIsConsistent();
    TheyHash();
    var m := FoldPointers(t.patches);
    assert HashOf(t.patches, 3, Ignoring) == Some(Range);
    HolderIs(t.patches, 2, Range);
    assert 2 !in RowIds(t.patches) && RowIds(t.patches) == {3};
    assert Keeper(t, Ignoring, Range) == 2;
    PassesStep(m, 2, 3);
    PassesStep(m, 1, 3);
    assert MergePair(t, Ignoring, (2, 3));
    assert 3 in Rows(t.patches);
    MembersAreMerged(t, Ignoring, NewHashes(t, Ignoring), (2, 3));
    RehashedAre(t);
    MergedCountForKeeper(t, Ignoring, (2, 3));
  }

  /** Only the merged patch's fingerprint changes: it is cleared. */
  lemma RehashedAre(t: Tables)
    requires t == KeeperFolded() && MergePair(t, Ignoring, (2, 3)) && DistinctFingerprints(t.patches)
    requires RowIds(t.patches) == {3}
    ensures DistinctFingerprints(Rehashed(t, Ignoring))
  {
    hide KeeperFolded, RowIds, HashOf, Blocked, Keeper;
    assert Want(t, Ignoring, 3) == None;
    forall x, fp | Holds(Rehashed(t, Ignoring), x, fp) ensures Holds(t.patches, x, fp) {
      assert Planned(t, Ignoring, x) ==> x == 3;
    }
  }

  // ---------- a second run that is not idle ----------

  const Narrow: Inventory := map[Cvar("z_range") := "600"]
  const NarrowPlugin: Inventory := map[Cvar("z_range") := "600", Plugin("", "stats.smx") := "1.2"]

  /**
   Patch 4 is folded through 3 and 2 into 1, so 2, which hashes as 4 now, cannot be merged into it.
   Patch 3 hashes as 5 now and is merged into that, which takes 4 off the way through 2.
   */
  function Unblocking(): Tables {
    Alone(map[1 := Seen(Wider, Announced, Readable(Wider), Balance, None),
              2 := Seen(WithPlugin, Detected, Readable(WithPlugin), Folded, Some(1)),
              3 := Seen(NarrowPlugin, Detected, Readable(NarrowPlugin), Folded, Some(2)),
              4 := Seen(Range, Announced, Readable(Range), Folded, Some(3)),
              5 := Seen(Narrow, Announced, Readable(Narrow), Balance, None)])
  }

  lemma TheseDiffer()
    ensures Wider != WithPlugin && Wider != NarrowPlugin && Wider != Range && Wider != Narrow
    ensures WithPlugin != NarrowPlugin && WithPlugin != Range && WithPlugin != Narrow
    ensures NarrowPlugin != Range && NarrowPlugin != Narrow && Range != Narrow
  {
    var c, p := Cvar("z_range"), Plugin("", "stats.smx");
    assert Range[c] == "700" && Wider[c] == "750" && Narrow[c] == "600" && WithPlugin[c] == "700";
    assert NarrowPlugin[c] == "600";
    assert p in WithPlugin && p in NarrowPlugin && p !in Range && p !in Wider && p !in Narrow;
  }

  lemma UnblockingPointers()
    ensures FoldPointers(Unblocking().patches) == map[2 := 1, 3 := 2, 4 := 3]
    ensures Acyclic(FoldPointers(Unblocking().patches))
    ensures Blocked(Unblocking().patches, 4, 2) && !Blocked(Unblocking().patches, 5, 3)
  {
    var m: Pointers<PatchId> := map[2 := 1, 3 := 2, 4 := 3];
    assert FoldPointers(Unblocking().patches) == m;
    RootOfEnd(m, 1);
    RootStep(m, 2);
    RootStep(m, 3);
    RootStep(m, 4);
    forall x: PatchId ensures Ends(m, x) {
      if x !in m { RootOfEnd(m, x); }
    }
    PassesStep(m, 2, 2);
    PassesStep(m, 3, 2);
    PassesStep(m, 4, 2);
    PassesStep(m, 5, 3);
  }

  lemma UnblockingIsConsistent()
    ensures Consistent(Unblocking())
  {
    UnblockingPointers();
    var ps := Unblocking().patches;
    assert DistinctFingerprints(ps) by {
      hide *;
      UnblockingFingerprints();
    }
  }

  lemma UnblockingFingerprints()
    ensures DistinctFingerprints(Unblocking().patches)
  {
    hide DistinctFingerprints;
    TheseDiffer();
    FiveDiffer(Unblocking().patches, Wider, WithPlugin, NarrowPlugin, Range, Narrow);
  }

  lemma FiveDiffer(ps: Patches, a: Fingerprint, b: Fingerprint, c: Fingerprint, d: Fingerprint, e: Fingerprint)
    requires ps.Keys == {1, 2, 3, 4, 5}
    requires ps[1].fingerprint == Some(a) && ps[2].fingerprint == Some(b) && ps[3].fingerprint == Some(c)
    requires ps[4].fingerprint == Some(d) && ps[5].fingerprint == Some(e)
    requires a != b && a != c && a != d && a != e && b != c && b != d && b != e && c != d && c != e && d != e
    ensures DistinctFingerprints(ps)
  {
  }

  lemma UnblockingHashes()
    ensures
      var ps := Unblocking().patches;
      && RowIds(ps) == {2, 3} && HashOf(ps, 2, Ignoring) == Some(Range) && HashOf(ps, 3, Ignoring) == Some(Narrow)
      && Holds(ps, 4, Range) && Holds(ps, 5, Narrow) && Holds(ps, 2, WithPlugin) && ps[4].source == Announced
  {
    TheyHash();
    assert FingerprintOf(WithoutIgnored(NarrowPlugin, {"stats.smx"}), {}) == Narrow;
  }

  /** Of patches that are not recomputed the holder keeps its hash. */
  lemma HolderKeeps(t: Tables, lists: Lists, fp: Fingerprint, x: PatchId)
    requires DistinctFingerprints(t.patches) && Holds(t.patches, x, fp) && x !in RowIds(t.patches)
    ensures Keeper(t, lists, fp) == x
  {
    HolderIs(t.patches, x, fp);
  }

  ghost predicate PlanIs(t: Tables) {
    && Keeper(t, Ignoring, Range) == 4 && Keeper(t, Ignoring, Narrow) == 5
    && Planned(t, Ignoring, 2) && Want(t, Ignoring, 2) == t.patches[2].fingerprint
    && Planned(t, Ignoring, 3) && Want(t, Ignoring, 3) == None
  }

  lemma UnblockingPlan()
    ensures PlanIs(Unblocking()) && MergePair(Unblocking(), Ignoring, (5, 3))
  {
    var t := Unblocking();
    UnblockingFingerprints();
    UnblockingPointers();
    UnblockingHashes();
    hide Unblocking, RowIds, HashOf, FoldPointers, Blocked, Keeper, DistinctFingerprints;
    assert 4 !in RowIds(t.patches) && 5 !in RowIds(t.patches);
    HolderKeeps(t, Ignoring, Range, 4);
    HolderKeeps(t, Ignoring, Narrow, 5);
  }

  /** One fingerprint is cleared, no other changes. */
  lemma ClearedStaysDistinct(t: Tables)
    requires DistinctFingerprints(t.patches) && PlanIs(t) && RowIds(t.patches) == {2, 3}
    ensures DistinctFingerprints(Rehashed(t, Ignoring))
    ensures Rehashed(t, Ignoring).Keys == t.patches.Keys
    ensures forall x | x in t.patches && x != 3 :: Rehashed(t, Ignoring)[x] == t.patches[x]
  {
    hide RowIds, HashOf, Blocked, Keeper, Want;
    forall x | x in t.patches && x != 3 ensures Rehashed(t, Ignoring)[x] == t.patches[x] {
      if Planned(t, Ignoring, x) { assert x == 2; }
    }
    forall x, fp | Holds(Rehashed(t, Ignoring), x, fp) ensures Holds(t.patches, x, fp) {}
  }

  lemma UnblockingRehashes()
    ensures Consistent(Unblocking()) && DistinctFingerprints(Rehashed(Unblocking(), Ignoring))
    ensures Rehashed(Unblocking(), Ignoring).Keys == Unblocking().patches.Keys
    ensures forall x | x in Unblocking().patches && x != 3 ::
      Rehashed(Unblocking(), Ignoring)[x] == Unblocking().patches[x]
  {
    hide Unblocking, Consistent, PlanIs, Rehashed, RowIds, DistinctFingerprints;
    UnblockingIsConsistent();
    UnblockingFingerprints();
    UnblockingHashes();
    UnblockingPlan();
    ClearedStaysDistinct(Unblocking());
  }

  lemma PairIsMerged(t: Tables, lists: Lists, p: (PatchId, PatchId))
    requires MergePair(t, lists, p)
    ensures p in AllPairs(MergesOf(t, lists))
  {
    assert p.1 in Rows(t.patches);
    MembersAreMerged(t, lists, NewHashes(t, lists), p);
  }

  lemma NotMerged(t: Tables, lists: Lists, x: PatchId)
    requires x in t.patches && t.patches[x].source != Detected
    ensures forall p | p in AllPairs(MergesOf(t, lists)) :: p.1 != x
    ensures forall u: Tables | FoldsOnly(t.(patches := Rehashed(t, lists)), u) :: x !in Leftovers(u.patches)
  {
    MergesAreStored(t, lists);
    forall p | p in AllPairs(MergesOf(t, lists)) ensures p.1 != x { assert Planned(t, lists, p.1); }
  }

  /** A merge leaves what it does not merge as the rewrite left it, and points what it merges at an unfolded keeper. */
  lemma MergedOnce(t: Tables, lists: Lists, p: (PatchId, PatchId), x: PatchId)
    requires Consistent(t) && DistinctFingerprints(Rehashed(t, lists)) && MergePair(t, lists, p) && KeeperUnfolded(t, p)
    requires x in t.patches && t.patches[x].source != Detected
    ensures
      var m := FoldPointers(Refingerprinted(t, lists).patches);
      && p.0 !in m && p.1 in m && m[p.1] == p.0
      && (IsFolded(t.patches[x]) ==> x in m && m[x] == t.patches[x].foldedInto.value)
  {
    hide *;
    PairIsMerged(t, lists, p);
    MergesAreStored(t, lists);
    NotMerged(t, lists, x);
    var a, b, c := Stages(t, lists);
    MergeKeepsAndPoints(t, lists, a, p, x);
    UnfoldedKeeperHolds(t, lists, p);
    MergedHolds(t, lists, a, b, p);
    PointsAtOutlives(b, lists, p);
    LeftoversSpare(b, lists, Leftovers(b.patches), x);
    TriagedChangesTriageOnly(c.patches);
    PointersAfter(t, lists, a, b, c, p, x);
  }

  lemma MergeKeepsAndPoints(t: Tables, lists: Lists, a: Tables, p: (PatchId, PatchId), x: PatchId)
    requires a == t.(patches := Rehashed(t, lists)) && Consistent(a) && KeeperUnfolded(t, p)
    requires p in AllPairs(MergesOf(t, lists)) && x in t.patches
    requires forall q | q in AllPairs(MergesOf(t, lists)) :: MergePair(t, lists, q) && q.1 != x
    ensures MergeTables(t, lists).patches[x] == a.patches[x] && PointsAt(MergeTables(t, lists), p)
  {
    hide Consistent, MergesOf, AllPairs, MergePair, MergedPairs, PointsAt;
    var keeper := a.patches[p.0];
    assert KeeperUnfolded(a, p);
    PairsPoint(t, lists, a, AllPairs(MergesOf(t, lists)));
  }

  lemma MergedHolds(t: Tables, lists: Lists, a: Tables, b: Tables, p: (PatchId, PatchId))
    requires a.patches == Rehashed(t, lists) && FoldsOnly(a, b) && p.0 in a.patches && a.patches[p.0].fingerprint.Some?
    ensures p.0 in b.patches && b.patches[p.0].fingerprint.Some?
  {
  }

  lemma PointersAfter(t: Tables, lists: Lists, a: Tables, b: Tables, c: Tables, p: (PatchId, PatchId), x: PatchId)
    requires a == t.(patches := Rehashed(t, lists)) && x in t.patches && t.patches[x].source != Detected
    requires x in b.patches && b.patches[x] == a.patches[x] && x in c.patches && c.patches[x] == b.patches[x]
    requires PointsAt(c, p) && Refingerprinted(t, lists) == c.(patches := AllTriaged(c.patches))
    requires FoldPointers(AllTriaged(c.patches)) == FoldPointers(c.patches)
    ensures
      var m := FoldPointers(Refingerprinted(t, lists).patches);
      && p.0 !in m && p.1 in m && m[p.1] == p.0
      && (IsFolded(t.patches[x]) ==> x in m && m[x] == t.patches[x].foldedInto.value)
  {
    hide Refingerprinted, AllTriaged;
  }

  /** After the first run nothing on patch 4's way blocks patch 2 any more. */
  lemma UnblockedAfter()
    ensures
      var u := Refingerprinted(Unblocking(), Ignoring).patches;
      4 in u && !Blocked(u, 4, 2)
  {
    var t := Unblocking();
    assert t.patches[4] == Seen(Range, Announced, Readable(Range), Folded, Some(3)) && KeeperUnfolded(t, (5, 3));
    hide Unblocking, Refingerprinted, Consistent, MergePair, DistinctFingerprints, Passes;
    UnblockingRehashes();
    UnblockingPlan();
    MergedOnce(t, Ignoring, (5, 3), 4);
    var m := FoldPointers(Refingerprinted(t, Ignoring).patches);
    hide FoldPointers;
    PassesStep(m, 4, 2);
    PassesStep(m, 3, 2);
    PassesStep(m, 5, 2);
  }

  /** A blocked member can be free once another group is merged, and the next run merges it. */
  lemma SecondRunIsNotIdle()
    ensures
      var t := Unblocking();
      Consistent(t) && DistinctFingerprints(Rehashed(t, Ignoring)) && !SecondRunIsIdle(t, Ignoring)
  {
    hide Unblocking, Refingerprinted, Rehashed, FoldPointers, Blocked, Consistent, Keeper, RowIds, HashOf;
    hide SecondRunIsIdle;
    var t := Unblocking();
    UnblockingPointers();
    UnblockingHashes();
    UnblockingPlan();
    UnblockingRehashes();
    UnblockedAfter();
    SecondRunIsIdleIffStillBlocked(t, Ignoring);
    assert KeeperOf(t, Ignoring, 2) == 4;
  }
}
