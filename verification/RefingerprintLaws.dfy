/**
 What a refingerprint (src/balancePatches.ts) promises: one holder for each
 recomputed hash, merged patches that count for their keeper, and nothing left
 to do on a second run.
 */
module RefingerprintLaws {
  import opened Wrappers
  import opened Inventories
  import opened PointerForest
  import opened BalanceTables
  import opened BalanceFold
  import opened BalancePatches

  // ---------- when the UNIQUE constraint trips ----------

  /** A recomputed row the step leaves holding its old fingerprint: unreadable
      inputs, a fold that would loop, or a keeper whose fingerprint a blocked
      member already holds. */
  ghost predicate LeftAsItIs(t: Tables, lists: Lists, id: PatchId) {
    && id in RowIds(t.patches)
    && (HashOf(t.patches, id, lists).None?
        || var fp := HashOf(t.patches, id, lists).value;
           var keep := Keeper(t, lists, fp);
           Blocked(t.patches, keep, id) || (id == keep && !KeeperTakes(t, lists, fp)))
  }

  /** A row that is given the hash `fp` of its group. */
  ghost predicate Takes(t: Tables, lists: Lists, id: PatchId, fp: Fingerprint) {
    && Planned(t, lists, id) && HashOf(t.patches, id, lists) == Some(fp)
    && id == Keeper(t, lists, fp) && KeeperTakes(t, lists, fp)
  }

  /** Some row left as it is holds the hash another row is given. */
  ghost predicate Clashes(t: Tables, lists: Lists) {
    exists x, y, fp :: LeftAsItIs(t, lists, x) && Holds(t.patches, x, fp) && Takes(t, lists, y, fp)
  }

  /** Where a fingerprint held after the rewrite comes from. */
  lemma HeldAfter(t: Tables, lists: Lists, x: PatchId, fp: Fingerprint)
    requires Holds(Rehashed(t, lists), x, fp)
    ensures Takes(t, lists, x, fp) || (Holds(t.patches, x, fp) && (x !in RowIds(t.patches) || LeftAsItIs(t, lists, x)))
  {
    if Planned(t, lists, x) {
      assert Want(t, lists, x) == Some(fp);
    }
  }

  /** A hash is never taken while a row that is not recomputed holds it. */
  lemma TakenFromRowsOnly(t: Tables, lists: Lists, x: PatchId, y: PatchId, fp: Fingerprint)
    requires DistinctFingerprints(t.patches) && Takes(t, lists, x, fp) && Holds(t.patches, y, fp)
    ensures y in RowIds(t.patches)
  {
    HolderIs(t.patches, y, fp);
    assert x in Rows(t.patches);
    assert x in Group(t, lists, fp);
  }

  /** A refingerprint throws on the UNIQUE constraint, and rolls back, exactly
      when a row it leaves as it is holds a hash it gives to another row. */
  lemma ThrowsExactlyOnClash(t: Tables, lists: Lists)
    requires DistinctFingerprints(t.patches)
    ensures DistinctFingerprints(Rehashed(t, lists)) <==> !Clashes(t, lists)
  {
    var ps := Rehashed(t, lists);
    if Clashes(t, lists) {
      var x, y, fp :| LeftAsItIs(t, lists, x) && Holds(t.patches, x, fp) && Takes(t, lists, y, fp);
      LeftHolds(t, lists, x);
      assert Holds(ps, x, fp) && Holds(ps, y, fp) && x != y;
    } else {
      forall x, y, fp | Holds(ps, x, fp) && Holds(ps, y, fp) ensures x == y {
        HeldAfter(t, lists, x, fp);
        HeldAfter(t, lists, y, fp);
        if Takes(t, lists, x, fp) && Holds(t.patches, y, fp) { TakenFromRowsOnly(t, lists, x, y, fp); }
        if Takes(t, lists, y, fp) && Holds(t.patches, x, fp) { TakenFromRowsOnly(t, lists, y, x, fp); }
      }
    }
  }

  lemma LeftHolds(t: Tables, lists: Lists, x: PatchId)
    requires LeftAsItIs(t, lists, x)
    ensures Rehashed(t, lists)[x] == t.patches[x]
    ensures forall fp :: !Takes(t, lists, x, fp)
  {
  }

  /** With readable inputs and no fold that would loop it never throws. */
  lemma ReadableNeverClashes(t: Tables, lists: Lists)
    requires DistinctFingerprints(t.patches)
    requires forall id | id in RowIds(t.patches) :: Planned(t, lists, id)
    requires NoneBlocked(t, lists)
    ensures DistinctFingerprints(Rehashed(t, lists))
  {
    forall id ensures !LeftAsItIs(t, lists, id) {
      if id in RowIds(t.patches) {
        var fp := HashOf(t.patches, id, lists).value;
        forall x | x in Group(t, lists, fp) ensures !Blocked(t.patches, Keeper(t, lists, fp), x) {
          InGroup(t, lists, fp, x);
        }
        assert id in Rows(t.patches);
        assert id in Group(t, lists, fp);
      }
    }
    ThrowsExactlyOnClash(t, lists);
  }

  /** No group hits the fold-loop branch. */
  ghost predicate NoneBlocked(t: Tables, lists: Lists) {
    forall id | Planned(t, lists, id) ::
      !Blocked(t.patches, Keeper(t, lists, HashOf(t.patches, id, lists).value), id)
  }

  // ---------- what the folds touch ----------

  /** `u` differs from `t` by folds alone: fingerprints, inputs and the other
      columns of a patch are as they were, and a folded patch is still folded. */
  ghost predicate FoldsOnly(t: Tables, u: Tables) {
    && u.patches.Keys == t.patches.Keys
    && u.boxes == t.boxes && u.ignored == t.ignored && u.rollout == t.rollout
    && forall id | id in t.patches ::
         var p, q := t.patches[id], u.patches[id];
         && q.fingerprint == p.fingerprint && q.source == p.source && q.inputs == p.inputs && q.firstSeen == p.firstSeen
         && (q == p || IsFolded(q))
         && (IsFolded(p) ==> IsFolded(q))
  }

  lemma FoldIsFoldsOnly(t: Tables, id: PatchId, into: PatchId)
    ensures FoldsOnly(t, FoldedInto(t, id, into))
    ensures forall x | x in t.patches && x != id :: FoldedInto(t, id, into).patches[x] == t.patches[x]
  {
  }

  lemma FoldsOnlyChain(t: Tables, u: Tables, v: Tables)
    requires FoldsOnly(t, u) && FoldsOnly(u, v)
    ensures FoldsOnly(t, v)
  {
  }

  lemma {:induction false} MergedPairsFoldOnly(t: Tables, pairs: seq<(PatchId, PatchId)>)
    requires Consistent(t)
    requires forall p | p in pairs :: p.0 in t.patches && p.1 in t.patches
    ensures Consistent(MergedPairs(t, pairs)) && FoldsOnly(t, MergedPairs(t, pairs))
    decreases |pairs|
  {
    if pairs != [] {
      var p, before := pairs[|pairs| - 1], pairs[..|pairs| - 1];
      var u := MergedPairs(t, before);
      MergedPairsFoldOnly(t, before);
      FoldKeepsConsistent(u, p.1, p.0);
      FoldIsFoldsOnly(u, p.1, p.0);
      FoldsOnlyChain(t, u, MergedPair(u, p));
    }
  }

  lemma LeftoverFoldOnly(t: Tables, lists: Lists, id: PatchId)
    requires Consistent(t)
    ensures Consistent(LeftoverFolded(t, lists, id)) && FoldsOnly(t, LeftoverFolded(t, lists, id))
    ensures forall x | x in t.patches && x != id :: LeftoverFolded(t, lists, id).patches[x] == t.patches[x]
  {
    var fp := HashOf(t.patches, id, lists);
    var holder := if fp.Some? then Holder(t.patches, fp.value) else None;
    if holder.Some? && id in t.patches {
      FoldKeepsConsistent(t, id, holder.value);
      FoldIsFoldsOnly(t, id, holder.value);
    }
  }

  lemma {:induction false} LeftoversFoldOnly(t: Tables, lists: Lists, ids: seq<PatchId>)
    requires Consistent(t)
    ensures Consistent(LeftoversFolded(t, lists, ids)) && FoldsOnly(t, LeftoversFolded(t, lists, ids))
    ensures forall x | x in t.patches && x !in ids :: LeftoversFolded(t, lists, ids).patches[x] == t.patches[x]
    decreases |ids|
  {
    if ids != [] {
      var before := ids[..|ids| - 1];
      var u := LeftoversFolded(t, lists, before);
      LeftoversFoldOnly(t, lists, before);
      LeftoverFoldOnly(u, lists, ids[|ids| - 1]);
      FoldsOnlyChain(t, u, LeftoversFolded(t, lists, ids));
    }
  }

  lemma RehashKeepsConsistent(t: Tables, lists: Lists)
    requires Consistent(t) && DistinctFingerprints(Rehashed(t, lists))
    ensures Consistent(t.(patches := Rehashed(t, lists)))
    ensures FoldPointers(Rehashed(t, lists)) == FoldPointers(t.patches)
  {
    assert FoldPointers(Rehashed(t, lists)) == FoldPointers(t.patches);
  }

  lemma MergesAreStored(t: Tables, lists: Lists)
    ensures forall p | p in AllPairs(MergesOf(t, lists)) :: MergePair(t, lists, p)
  {
    forall p | p in AllPairs(MergesOf(t, lists)) ensures MergePair(t, lists, p) {
      MergePairsOf(t, lists, NewHashes(t, lists), p);
    }
  }

  lemma TriagedChangesTriageOnly(ps: Patches)
    ensures FoldPointers(AllTriaged(ps)) == FoldPointers(ps)
    ensures forall x, fp :: Holds(AllTriaged(ps), x, fp) <==> Holds(ps, x, fp)
  {
    var m, m' := FoldPointers(ps), FoldPointers(AllTriaged(ps));
    forall id ensures id in m' <==> id in m {
      if id in ps { assert AllTriaged(ps)[id] == Triaged(ps[id]); }
    }
    forall id | id in m ensures m'[id] == m[id] {
      assert AllTriaged(ps)[id] == Triaged(ps[id]);
    }
    assert m' == m;
  }

  lemma TriagedKeepsConsistent(t: Tables)
    requires Consistent(t)
    ensures Consistent(t.(patches := AllTriaged(t.patches)))
  {
    TriagedChangesTriageOnly(t.patches);
  }

  /** The three stages of a refingerprint that throws nothing. */
  lemma Stages(t: Tables, lists: Lists) returns (a: Tables, b: Tables, c: Tables)
    requires Consistent(t) && DistinctFingerprints(Rehashed(t, lists))
    ensures a == t.(patches := Rehashed(t, lists)) && Consistent(a)
    ensures b == MergeTables(t, lists) && Consistent(b) && FoldsOnly(a, b)
    ensures c == LeftoversFolded(b, lists, Leftovers(b.patches)) && Consistent(c) && FoldsOnly(b, c)
    ensures Refingerprinted(t, lists) == c.(patches := AllTriaged(c.patches))
  {
    RehashKeepsConsistent(t, lists);
    a := t.(patches := Rehashed(t, lists));
    MergesAreStored(t, lists);
    MergedPairsFoldOnly(a, AllPairs(MergesOf(t, lists)));
    b := MergeTables(t, lists);
    LeftoversFoldOnly(b, lists, Leftovers(b.patches));
    c := LeftoversFolded(b, lists, Leftovers(b.patches));
  }

  lemma RefingerprintKeepsConsistent(t: Tables, lists: Lists)
    requires Consistent(t)
    ensures Consistent(RefingerprintResult(t, lists))
  {
    if DistinctFingerprints(Rehashed(t, lists)) {
      var a, b, c := Stages(t, lists);
      TriagedKeepsConsistent(c);
    }
  }

  // ---------- what it leaves ----------

  lemma FoldsOnlyHolds(t: Tables, u: Tables, x: PatchId, fp: Fingerprint)
    requires FoldsOnly(t, u)
    ensures Holds(u.patches, x, fp) <==> Holds(t.patches, x, fp)
  {
  }

  lemma HoldsAfterRehash(t: Tables, lists: Lists)
    requires Consistent(t) && DistinctFingerprints(Rehashed(t, lists))
    ensures forall x, fp :: Holds(Refingerprinted(t, lists).patches, x, fp) <==> Holds(Rehashed(t, lists), x, fp)
  {
    var a, b, c := Stages(t, lists);
    TriagedChangesTriageOnly(c.patches);
    forall x, fp ensures Holds(c.patches, x, fp) <==> Holds(a.patches, x, fp) {
      FoldsOnlyHolds(a, b, x, fp);
      FoldsOnlyHolds(b, c, x, fp);
    }
  }

  /** Afterwards exactly one patch holds each recomputed hash. */
  lemma OneHolderForEachHash(t: Tables, lists: Lists, id: PatchId)
    requires Consistent(t) && DistinctFingerprints(Rehashed(t, lists)) && Planned(t, lists, id)
    ensures
      var ps, fp := Refingerprinted(t, lists).patches, HashOf(t.patches, id, lists).value;
      exists h :: Holds(ps, h, fp) && forall x :: Holds(ps, x, fp) ==> x == h
  {
    var ps, fp := Refingerprinted(t, lists).patches, HashOf(t.patches, id, lists).value;
    HoldsAfterRehash(t, lists);
    var h := HolderAfter(t, lists, id);
    assert Holds(ps, h, fp);
  }

  /** The keeper, or the blocked member that already held the hash. */
  lemma HolderAfter(t: Tables, lists: Lists, id: PatchId) returns (h: PatchId)
    requires Planned(t, lists, id)
    ensures Holds(Rehashed(t, lists), h, HashOf(t.patches, id, lists).value)
  {
    var fp := HashOf(t.patches, id, lists).value;
    assert id in Rows(t.patches);
    assert id in Group(t, lists, fp);
    var keep := Keeper(t, lists, fp);
    if keep !in Group(t, lists, fp) {
      h := keep;
    } else if KeeperTakes(t, lists, fp) {
      InGroup(t, lists, fp, keep);
      h := keep;
    } else {
      h :| h in Group(t, lists, fp) && Blocked(t.patches, keep, h) && t.patches[h].fingerprint == Some(fp);
      InGroup(t, lists, fp, h);
    }
  }

  // ---------- whom the merged patches count for ----------

  /** A keeper is never merged itself, and a patch is merged into one keeper. */
  lemma KeepersStay(t: Tables, lists: Lists, p: (PatchId, PatchId), q: (PatchId, PatchId))
    requires MergePair(t, lists, p) && MergePair(t, lists, q)
    ensures p.0 != q.1
    ensures p.1 == q.1 ==> p.0 == q.0
  {
    var fp := HashOf(t.patches, p.1, lists).value;
    assert p.1 in Rows(t.patches);
    assert p.1 in Group(t, lists, fp);
    if p.0 in Group(t, lists, fp) { InGroup(t, lists, fp, p.0); }
  }

  /** `p`'s keeper is a stored patch that is not folded. */
  ghost predicate KeeperUnfolded(t: Tables, p: (PatchId, PatchId)) {
    p.0 in t.patches && !IsFolded(t.patches[p.0])
  }

  ghost predicate PointsAt(u: Tables, p: (PatchId, PatchId)) {
    && p.0 in u.patches && p.1 in u.patches
    && !IsFolded(u.patches[p.0])
    && IsFolded(u.patches[p.1]) && u.patches[p.1].foldedInto == Some(p.0)
  }

  lemma UnfoldedKeeperTakesFold(u: Tables, p: (PatchId, PatchId))
    requires Consistent(u) && p.0 in u.patches && p.1 in u.patches && p.0 != p.1 && !IsFolded(u.patches[p.0])
    ensures PointsAt(MergedPair(u, p), p)
  {
    RootOfEnd(FoldPointers(u.patches), p.0);
    PassesStep(FoldPointers(u.patches), p.0, p.1);
  }

  lemma {:induction false} PairsPoint(t: Tables, lists: Lists, a: Tables, pairs: seq<(PatchId, PatchId)>)
    requires Consistent(a) && a.patches.Keys == t.patches.Keys
    requires forall p | p in pairs :: MergePair(t, lists, p)
    ensures forall x | x in a.patches && (forall p | p in pairs :: p.1 != x) ::
      MergedPairs(a, pairs).patches[x] == a.patches[x]
    ensures forall p | p in pairs && KeeperUnfolded(a, p) :: PointsAt(MergedPairs(a, pairs), p)
    decreases |pairs|
  {
    if pairs != [] {
      var q, before := pairs[|pairs| - 1], pairs[..|pairs| - 1];
      assert pairs == before + [q];
      var u := MergedPairs(a, before);
      var v := MergedPair(u, q);
      PairsPoint(t, lists, a, before);
      MergedPairsFoldOnly(a, before);
      FoldIsFoldsOnly(u, q.1, q.0);
      forall p | p in before { KeepersStay(t, lists, q, p); }
      forall p | p in pairs && KeeperUnfolded(a, p) ensures PointsAt(v, p) {
        KeepersStay(t, lists, p, q);
        if p.1 == q.1 {
          forall p' | p' in before { KeepersStay(t, lists, p, p'); }
          UnfoldedKeeperTakesFold(u, q);
        } else {
          assert p in before;
        }
      }
    }
  }

  lemma UnfoldedKeeperHolds(t: Tables, lists: Lists, p: (PatchId, PatchId))
    requires MergePair(t, lists, p) && KeeperUnfolded(t, p)
    ensures p.0 in Rehashed(t, lists) && Rehashed(t, lists)[p.0].fingerprint.Some?
  {
    var fp := HashOf(t.patches, p.1, lists).value;
    assert p.1 in Rows(t.patches);
    assert p.1 in Group(t, lists, fp);
    if p.0 in Group(t, lists, fp) { InGroup(t, lists, fp, p.0); }
    forall x ensures !Blocked(t.patches, p.0, x) {
      PassesStep(FoldPointers(t.patches), p.0, x);
    }
  }

  /** The merge folds outlive the leftover folds: neither the keeper nor the
      merged patch is a leftover. */
  lemma PointsAtOutlives(b: Tables, lists: Lists, p: (PatchId, PatchId))
    requires Consistent(b) && PointsAt(b, p) && b.patches[p.0].fingerprint.Some?
    ensures PointsAt(LeftoversFolded(b, lists, Leftovers(b.patches)), p)
  {
    var ids := Leftovers(b.patches);
    LeftoversFoldOnly(b, lists, ids);
    LeftoversSpare(b, lists, ids, p.0);
    LeftoversSpare(b, lists, ids, p.1);
  }

  lemma LeftoversSpare(t: Tables, lists: Lists, ids: seq<PatchId>, x: PatchId)
    requires Consistent(t) && x in t.patches && x !in ids
    ensures LeftoversFolded(t, lists, ids).patches[x] == t.patches[x]
  {
    LeftoversFoldOnly(t, lists, ids);
  }

  lemma PointsAtResolves(c: Tables, p: (PatchId, PatchId))
    requires Consistent(c) && PointsAt(c, p)
    ensures Effective(c.patches, p.1) == p.0
  {
    RootStep(FoldPointers(c.patches), p.1);
    RootOfEnd(FoldPointers(c.patches), p.0);
  }

  lemma FoldedNeverResolvedTo(a: Tables, c: Tables, k: PatchId, x: PatchId)
    requires Consistent(c) && FoldsOnly(a, c) && k in FoldPointers(a.patches)
    ensures Effective(c.patches, x) != k
  {
    assert k in FoldPointers(c.patches);
    EndsAt(FoldPointers(c.patches), x);
    RootNotKey(FoldPointers(c.patches), x);
  }

  /** A merged patch counts for its keeper exactly when the keeper was not
      itself folded; otherwise the keeper counted elsewhere already. */
  lemma MergedCountForKeeper(t: Tables, lists: Lists, p: (PatchId, PatchId))
    requires Consistent(t) && DistinctFingerprints(Rehashed(t, lists))
    requires p in AllPairs(MergesOf(t, lists))
    ensures Effective(Refingerprinted(t, lists).patches, p.1) == p.0 <==> p.0 !in FoldPointers(t.patches)
  {
    var a, b, c := Stages(t, lists);
    TriagedChangesTriageOnly(c.patches);
    RehashKeepsConsistent(t, lists);
    MergesAreStored(t, lists);
    if p.0 in FoldPointers(t.patches) {
      FoldsOnlyChain(a, b, c);
      FoldedNeverResolvedTo(a, c, p.0, p.1);
    } else {
      PairsPoint(t, lists, a, AllPairs(MergesOf(t, lists)));
      UnfoldedKeeperHolds(t, lists, p);
      PointsAtOutlives(b, lists, p);
      PointsAtResolves(c, p);
    }
  }
}
