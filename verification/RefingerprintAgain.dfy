/**
 Refingerprinting again with the same lists (src/balancePatches.ts): it changes nothing exactly when
 every row the first run could not merge still cannot be merged.
 */
module RefingerprintAgain {
  import opened Wrappers
  import opened Inventories
  import opened PointerForest
  import opened BalanceTables
  import opened BalanceFold
  import opened RowOrder
  import opened BalancePatches
  import opened RefingerprintLaws

  // ---------- leftovers ----------

  /** Every patch that shares the leftover's hash counts for the leftover. */
  ghost predicate Settled(u: Tables, lists: Lists, l: PatchId) {
    forall fp, h :: HashOf(u.patches, l, lists) == Some(fp) && Holds(u.patches, h, fp) ==> Effective(u.patches, h) == l
  }

  lemma SettledStaysPut(u: Tables, lists: Lists, l: PatchId)
    requires Settled(u, lists, l)
    ensures LeftoverFolded(u, lists, l) == u
  {
  }

  /** A leftover that is still not folded after its turn is settled. */
  lemma TurnSettles(u: Tables, lists: Lists, l: PatchId)
    requires Consistent(u) && l in u.patches && !IsFolded(u.patches[l]) && u.patches[l].fingerprint.None?
    requires !IsFolded(LeftoverFolded(u, lists, l).patches[l])
    ensures LeftoverFolded(u, lists, l) == u && Settled(u, lists, l)
  {
    var m := FoldPointers(u.patches);
    RootOfEnd(m, l);
    forall fp, h | HashOf(u.patches, l, lists) == Some(fp) && Holds(u.patches, h, fp)
      ensures Effective(u.patches, h) == l
    {
      HolderIs(u.patches, h, fp);
      EndsAt(m, h);
      if Passes(m, h, l) { PassesSameRoot(m, h, l); }
    }
  }

  /** Another leftover's turn keeps it settled. */
  lemma OthersTurnKeepsSettled(u: Tables, lists: Lists, l: PatchId, other: PatchId)
    requires Consistent(u) && Settled(u, lists, l) && l != other
    requires other in u.patches && !IsFolded(u.patches[other])
    ensures Settled(LeftoverFolded(u, lists, other), lists, l)
  {
    var m, v := FoldPointers(u.patches), LeftoverFolded(u, lists, other);
    LeftoverFoldOnly(u, lists, other);
    if v != u {
      var holder := Holder(u.patches, HashOf(u.patches, other, lists).value).value;
      FoldReroutes(u, other, holder);
      RootOfEnd(m, other);
      forall fp, h | HashOf(v.patches, l, lists) == Some(fp) && Holds(v.patches, h, fp)
        ensures Effective(v.patches, h) == l
      {
        FoldsOnlyHolds(u, v, h, fp);
        assert HashOf(u.patches, l, lists) == Some(fp);
        EndsAt(m, h);
        if Passes(m, h, other) { PassesSameRoot(m, h, other); }
      }
    }
  }

  lemma {:induction false} LeftoversSettle(t: Tables, lists: Lists, ids: seq<PatchId>, l: PatchId)
    requires Consistent(t) && l in ids && l in t.patches
    requires forall x | x in ids :: x in LeftoverIds(t.patches)
    requires forall i, j | 0 <= i < j < |ids| :: ids[i] != ids[j]
    requires !IsFolded(LeftoversFolded(t, lists, ids).patches[l])
    ensures Settled(LeftoversFolded(t, lists, ids), lists, l)
    decreases |ids|
  {
    var last, before := ids[|ids| - 1], ids[..|ids| - 1];
    assert last !in before && last in LeftoverIds(t.patches);
    var u := LeftoversFolded(t, lists, before);
    LeftoversFoldOnly(t, lists, before);
    LeftoverFoldOnly(u, lists, last);
    if l == last {
      TurnSettles(u, lists, l);
    } else {
      assert l in before;
      LeftoversSettle(t, lists, before, l);
      OthersTurnKeepsSettled(u, lists, l, last);
    }
  }

  lemma {:induction false} AllSettledStayPut(u: Tables, lists: Lists, ids: seq<PatchId>)
    requires forall l | l in ids :: Settled(u, lists, l)
    ensures LeftoversFolded(u, lists, ids) == u
    decreases |ids|
  {
    if ids != [] {
      AllSettledStayPut(u, lists, ids[..|ids| - 1]);
      SettledStaysPut(u, lists, ids[|ids| - 1]);
    }
  }

  lemma LeftoverOfBoth(b: Tables, c: Tables, l: PatchId)
    requires FoldsOnly(b, c) && l in LeftoverIds(AllTriaged(c.patches))
    ensures c.patches[l] == b.patches[l] && l in LeftoverIds(b.patches) && !IsFolded(c.patches[l])
  {
    assert AllTriaged(c.patches)[l] == Triaged(c.patches[l]);
  }

  lemma FinalLeftoversSettled(b: Tables, lists: Lists, l: PatchId)
    requires Consistent(b)
    requires l in LeftoverIds(AllTriaged(LeftoversFolded(b, lists, Leftovers(b.patches)).patches))
    ensures
      var c := LeftoversFolded(b, lists, Leftovers(b.patches));
      Settled(c.(patches := AllTriaged(c.patches)), lists, l)
  {
    var ids := Leftovers(b.patches);
    var c := LeftoversFolded(b, lists, ids);
    LeftoversFoldOnly(b, lists, ids);
    LeftoverOfBoth(b, c, l);
    LeftoversSettle(b, lists, ids, l);
    TriagedChangesTriageOnly(c.patches);
    var u := c.(patches := AllTriaged(c.patches));
    forall fp, h | HashOf(u.patches, l, lists) == Some(fp) && Holds(u.patches, h, fp)
      ensures Effective(u.patches, h) == l
    {
      assert HashOf(c.patches, l, lists) == Some(fp) && Holds(c.patches, h, fp);
    }
  }

  // ---------- what the first run leaves of a row ----------

  /** The columns a refingerprint's later steps leave as the rewrite left them. */
  ghost predicate Outcome(t: Tables, lists: Lists, u: Tables) {
    && u.patches.Keys == t.patches.Keys
    && forall id | id in t.patches ::
         && u.patches[id].fingerprint == Rehashed(t, lists)[id].fingerprint
         && u.patches[id].source == t.patches[id].source && u.patches[id].inputs == t.patches[id].inputs
  }

  lemma FoldedOutcome(t: Tables, lists: Lists, c: Tables)
    requires FoldsOnly(t.(patches := Rehashed(t, lists)), c)
    ensures Outcome(t, lists, c.(patches := AllTriaged(c.patches)))
  {
    forall id | id in t.patches
      ensures
        var q := AllTriaged(c.patches)[id];
        && q.fingerprint == Rehashed(t, lists)[id].fingerprint
        && q.source == t.patches[id].source && q.inputs == t.patches[id].inputs
    {
      assert AllTriaged(c.patches)[id] == Triaged(c.patches[id]);
    }
  }

  lemma RefingerprintOutcome(t: Tables, lists: Lists)
    requires Consistent(t) && DistinctFingerprints(Rehashed(t, lists))
    ensures Outcome(t, lists, Refingerprinted(t, lists))
  {
    var a, b, c := Stages(t, lists);
    FoldsOnlyChain(a, b, c);
    FoldedOutcome(t, lists, c);
  }

  /** The keeper the first run chose for this row's group. */
  ghost function KeeperOf(t: Tables, lists: Lists, id: PatchId): PatchId
    requires Planned(t, lists, id)
  {
    Keeper(t, lists, HashOf(t.patches, id, lists).value)
  }

  /** A patch with a fingerprint that the rewrite does not clear. */
  ghost predicate KeepsOne(t: Tables, lists: Lists, id: PatchId) {
    id in t.patches && t.patches[id].fingerprint.Some? && (Planned(t, lists, id) ==> Want(t, lists, id).Some?)
  }

  /** The first run's effect on rows that are not merged: their fingerprint, and nothing else. */
  ghost predicate Survives(t: Tables, lists: Lists, u: Tables) {
    && Outcome(t, lists, u) && u.rollout == t.rollout
    && forall id | KeepsOne(t, lists, id) ::
         u.patches[id] == t.patches[id].(fingerprint := Rehashed(t, lists)[id].fingerprint)
  }

  lemma StageColumns(t: Tables, lists: Lists, a: Tables, b: Tables, c: Tables, id: PatchId)
    requires a == t.(patches := Rehashed(t, lists)) && FoldsOnly(a, b) && FoldsOnly(b, c)
    requires id in t.patches && b.patches[id] == a.patches[id] && c.patches[id] == b.patches[id]
    requires a.patches[id].fingerprint.Some?
    ensures AllTriaged(c.patches)[id] == t.patches[id].(fingerprint := Rehashed(t, lists)[id].fingerprint)
  {
  }

  lemma NotAPair(t: Tables, lists: Lists, id: PatchId)
    requires Planned(t, lists, id) ==> Want(t, lists, id).Some?
    ensures forall p | p in AllPairs(MergesOf(t, lists)) :: p.1 != id
  {
    MergesAreStored(t, lists);
    forall p | p in AllPairs(MergesOf(t, lists)) ensures p.1 != id { assert MergePair(t, lists, p); }
  }

  lemma FirstRunSurvives(t: Tables, lists: Lists)
    requires Consistent(t) && DistinctFingerprints(Rehashed(t, lists))
    ensures Survives(t, lists, Refingerprinted(t, lists))
  {
    hide Consistent, DistinctFingerprints, MergedPairs, MergesOf, AllPairs, MergePair, PointsAt, KeeperUnfolded;
    hide LeftoversFolded, Want, Planned;
    hide Refingerprinted, MergeTables, AllTriaged;
    RefingerprintOutcome(t, lists);
    var a, b, c := Stages(t, lists);
    var u := Refingerprinted(t, lists);
    var pairs := AllPairs(MergesOf(t, lists));
    MergesAreStored(t, lists);
    PairsPoint(t, lists, a, pairs);
    MergedInOrder(t, lists);
    forall id | KeepsOne(t, lists, id)
      ensures u.patches[id] == t.patches[id].(fingerprint := Rehashed(t, lists)[id].fingerprint)
    {
      NotAPair(t, lists, id);
      StillSome(t, lists, id);
      assert b.patches[id] == a.patches[id];
      LeftoversSpare(b, lists, Leftovers(b.patches), id);
      StageColumns(t, lists, a, b, c, id);
    }
  }

  lemma MergedInOrder(t: Tables, lists: Lists)
    ensures MergeTables(t, lists) == MergedPairs(t.(patches := Rehashed(t, lists)), AllPairs(MergesOf(t, lists)))
  {
  }

  lemma StillSome(t: Tables, lists: Lists, id: PatchId)
    requires KeepsOne(t, lists, id)
    ensures Rehashed(t, lists)[id].fingerprint.Some?
  {
  }

  // ---------- the keeper is chosen again ----------

  predicate Sorted(time: map<int, int>, ids: seq<PatchId>) {
    forall i, j | 0 <= i < j < |ids| :: Earlier(time, ids[i], ids[j])
  }

  lemma {:induction false} MembersSorted(ps: Patches, rows: seq<PatchId>, lists: Lists, fp: Fingerprint)
    requires Sorted(SeenAt(ps), rows)
    ensures Sorted(SeenAt(ps), Members(ps, rows, lists, fp))
    decreases |rows|
  {
    if rows != [] {
      var n := |rows| - 1;
      var before := Members(ps, rows[..n], lists, fp);
      MembersSorted(ps, rows[..n], lists, fp);
      forall x | x in before ensures Earlier(SeenAt(ps), x, rows[n]) {
        var i :| 0 <= i < n && rows[..n][i] == x;
        assert rows[i] == x;
      }
    }
  }

  lemma GroupSorted(t: Tables, lists: Lists, fp: Fingerprint)
    ensures Sorted(SeenAt(t.patches), Group(t, lists, fp))
  {
    MembersSorted(t.patches, Rows(t.patches), lists, fp);
  }

  /** The first of the ids that is wanted comes before every other that is. */
  lemma {:induction false} FindIsFirst(time: map<int, int>, ids: seq<PatchId>, wanted: set<PatchId>)
    requires Sorted(time, ids)
    ensures Find(ids, wanted).Some? ==>
      forall x | x in ids && x in wanted :: x == Find(ids, wanted).value || Earlier(time, Find(ids, wanted).value, x)
    decreases |ids|
  {
    if ids != [] && ids[0] !in wanted { FindIsFirst(time, ids[1..], wanted); }
  }

  /** `ids'` keeps some of `ids`, in order, and the one found among all. */
  lemma FoundAgain(time: map<int, int>, time': map<int, int>, ids: seq<PatchId>, ids': seq<PatchId>,
                   wanted: set<PatchId>, wanted': set<PatchId>)
    requires Sorted(time, ids) && Sorted(time', ids')
    requires forall x | x in ids' ::
      x in ids && x in time && x in time' && time'[x] == time[x] && (x in wanted' <==> x in wanted)
    ensures Find(ids, wanted).None? ==> Find(ids', wanted').None?
    ensures Find(ids, wanted).Some? && Find(ids, wanted).value in ids' ==> Find(ids', wanted') == Find(ids, wanted)
  {
    FindIsFirst(time, ids, wanted);
    FindIsFirst(time', ids', wanted');
    var again := Find(ids', wanted');
    assert again.Some? ==> again.value in ids && again.value in wanted;
  }

  lemma FirstIsFirst(time: map<int, int>, ids: seq<PatchId>)
    requires Sorted(time, ids) && ids != []
    ensures forall x | x in ids :: x == ids[0] || Earlier(time, ids[0], x)
  {
  }

  lemma FirstAgain(time: map<int, int>, time': map<int, int>, ids: seq<PatchId>, ids': seq<PatchId>)
    requires Sorted(time, ids) && Sorted(time', ids') && ids != [] && ids[0] in ids'
    requires forall x | x in ids' :: x in ids && x in time && x in time' && time'[x] == time[x]
    ensures ids'[0] == ids[0]
  {
    FirstIsFirst(time, ids);
    FirstIsFirst(time', ids');
    assert ids'[0] in ids';
  }

  /** What is recomputed again is what the first run left with a fingerprint. */
  lemma SurvivorIs(t: Tables, lists: Lists, u: Tables, x: PatchId)
    requires Survives(t, lists, u)
    ensures Planned(u, lists, x) <==> Planned(t, lists, x) && Want(t, lists, x).Some?
    ensures Planned(u, lists, x) ==>
      HashOf(u.patches, x, lists) == HashOf(t.patches, x, lists)
      && u.patches[x] == t.patches[x].(fingerprint := Want(t, lists, x))
  {
    hide Want, Keeper, Blocked, KeeperTakes;
  }

  lemma GroupAgain(t: Tables, lists: Lists, u: Tables, fp: Fingerprint)
    requires Survives(t, lists, u)
    ensures forall x :: x in Group(u, lists, fp) <==> x in Group(t, lists, fp) && Want(t, lists, x).Some?
  {
    hide Want;
    forall x ensures x in Group(u, lists, fp) <==> x in Group(t, lists, fp) && Planned(u, lists, x) {
      if x in Group(t, lists, fp) { InGroup(t, lists, fp, x); }
      if x in Group(u, lists, fp) { InGroup(u, lists, fp, x); assert x in Rows(t.patches); }
      SurvivorIs(t, lists, u, x);
      if Planned(u, lists, x) { assert x in Rows(u.patches); }
    }
    forall x | x in Group(t, lists, fp) ensures Planned(t, lists, x) {
      InGroup(t, lists, fp, x);
    }
    forall x { SurvivorIs(t, lists, u, x); }
  }

  lemma ChosenAgain(ps: Patches, ps': Patches, rollout: Option<PatchId>, h: Option<PatchId>, h': Option<PatchId>,
                    ids: seq<PatchId>, ids': seq<PatchId>)
    requires Sorted(SeenAt(ps), ids) && Sorted(SeenAt(ps'), ids') && ids != []
    requires forall x | x in ids' :: x in ids && x in ps && x in ps' && ps'[x].firstSeen == ps[x].firstSeen
    requires forall x | x in ids' ::
      (x in Published(ps') <==> x in Published(ps)) && (x in BalanceRows(ps') <==> x in BalanceRows(ps))
    requires h.Some? ==> h.value in RowIds(ps)
    requires h'.Some? ==> h'.value in RowIds(ps')
    requires ChooseKeeper(ps, rollout, h, ids) in ids'
    ensures ChooseKeeper(ps', rollout, h', ids') == ChooseKeeper(ps, rollout, h, ids)
  {
    var time, time' := SeenAt(ps), SeenAt(ps');
    var active := if rollout.Some? then {rollout.value} else {};
    FoundAgain(time, time', ids, ids', active, active);
    FoundAgain(time, time', ids, ids', Published(ps), Published(ps'));
    FoundAgain(time, time', ids, ids', BalanceRows(ps), BalanceRows(ps'));
    if ids[0] in ids' { FirstAgain(time, time', ids, ids'); }
  }

  /** A hash that a row outside the recomputed ones holds stays with it. */
  lemma OutsideHolderStays(t: Tables, lists: Lists, u: Tables, fp: Fingerprint, h: PatchId)
    requires Survives(t, lists, u) && DistinctFingerprints(t.patches) && DistinctFingerprints(u.patches)
    requires Holds(t.patches, h, fp) && h !in RowIds(t.patches)
    ensures Keeper(t, lists, fp) == h && Keeper(u, lists, fp) == h
  {
    hide Want;
    HolderIs(t.patches, h, fp);
    assert u.patches[h] == t.patches[h];
    HolderIs(u.patches, h, fp);
  }

  /** The keeper of a group of recomputed rows, and any row that holds the hash afterwards, is one of them. */
  lemma HolderInside(t: Tables, lists: Lists, u: Tables, fp: Fingerprint, x: PatchId)
    requires Survives(t, lists, u) && DistinctFingerprints(t.patches)
    requires forall h | Holds(t.patches, h, fp) :: h in RowIds(t.patches)
    requires Holds(u.patches, x, fp)
    ensures x in RowIds(u.patches)
  {
    if Planned(t, lists, x) { SurvivorIs(t, lists, u, x); }
    hide Want;
    assert x !in RowIds(u.patches) ==> Holds(t.patches, x, fp);
  }

  lemma KeeperWants(t: Tables, lists: Lists, fp: Fingerprint)
    requires Keeper(t, lists, fp) in Group(t, lists, fp)
    ensures Planned(t, lists, Keeper(t, lists, fp)) && Want(t, lists, Keeper(t, lists, fp)).Some?
  {
    InGroup(t, lists, fp, Keeper(t, lists, fp));
  }

  lemma KeeperAgain(t: Tables, lists: Lists, u: Tables, id: PatchId)
    requires Survives(t, lists, u) && DistinctFingerprints(t.patches) && DistinctFingerprints(u.patches)
    requires Planned(t, lists, id) && Want(t, lists, id).Some?
    ensures Keeper(u, lists, HashOf(t.patches, id, lists).value) == KeeperOf(t, lists, id)
  {
    var fp := HashOf(t.patches, id, lists).value;
    if h :| Holds(t.patches, h, fp) && h !in RowIds(t.patches) {
      OutsideHolderStays(t, lists, u, fp, h);
    } else {
      KeeperAmongRows(t, lists, u, id);
    }
  }

  lemma KeeperAmongRows(t: Tables, lists: Lists, u: Tables, id: PatchId)
    requires Survives(t, lists, u) && DistinctFingerprints(t.patches)
    requires Planned(t, lists, id) && Want(t, lists, id).Some?
    requires forall h | Holds(t.patches, h, HashOf(t.patches, id, lists).value) :: h in RowIds(t.patches)
    ensures Keeper(u, lists, HashOf(t.patches, id, lists).value) == KeeperOf(t, lists, id)
  {
    hide Want, ChooseKeeper, Members;
    var fp := HashOf(t.patches, id, lists).value;
    var ids, ids' := Group(t, lists, fp), Group(u, lists, fp);
    assert id in Rows(t.patches);
    assert id in ids;
    var h, h' := Holder(t.patches, fp), Holder(u.patches, fp);
    GroupSorted(t, lists, fp);
    GroupSorted(u, lists, fp);
    GroupAgain(t, lists, u, fp);
    if h'.Some? { HolderInside(t, lists, u, fp, h'.value); }
    var keep := Keeper(t, lists, fp);
    assert keep in ids;
    KeeperWants(t, lists, fp);
    forall x | x in ids'
      ensures x in t.patches && x in u.patches && u.patches[x].firstSeen == t.patches[x].firstSeen
      ensures x in Published(u.patches) <==> x in Published(t.patches)
      ensures x in BalanceRows(u.patches) <==> x in BalanceRows(t.patches)
    {
      InGroup(t, lists, fp, x);
      SurvivorIs(t, lists, u, x);
    }
    ChosenAgain(t.patches, u.patches, t.rollout, h, h', ids, ids');
  }

  // ---------- the second run ----------

  /** Every row the first run could not merge cannot be merged after it. */
  ghost predicate StillBlocked(t: Tables, lists: Lists, u: Tables) {
    forall id | Planned(t, lists, id) && Blocked(t.patches, KeeperOf(t, lists, id), id) ::
      Blocked(u.patches, KeeperOf(t, lists, id), id)
  }

  lemma TakesAgain(t: Tables, lists: Lists, u: Tables, id: PatchId)
    requires Survives(t, lists, u) && StillBlocked(t, lists, u)
    requires Planned(t, lists, id)
    requires Keeper(u, lists, HashOf(t.patches, id, lists).value) == KeeperOf(t, lists, id)
    ensures KeeperTakes(u, lists, HashOf(t.patches, id, lists).value) ==
      KeeperTakes(t, lists, HashOf(t.patches, id, lists).value)
  {
    hide Survives, Keeper, Blocked;
    var fp, keep := HashOf(t.patches, id, lists).value, KeeperOf(t, lists, id);
    GroupAgain(t, lists, u, fp);
    forall x | x in Group(t, lists, fp)
      ensures x in Group(u, lists, fp) && x != keep ==>
        Blocked(t.patches, keep, x) && u.patches[x].fingerprint == t.patches[x].fingerprint
      ensures Blocked(t.patches, keep, x) ==> x in Group(u, lists, fp) && Blocked(u.patches, keep, x)
    {
      InGroup(t, lists, fp, x);
      SurvivorIs(t, lists, u, x);
    }
    KeeperIsNotBlocked(u.patches, keep);
  }

  lemma KeeperIsNotBlocked(ps: Patches, keep: PatchId)
    ensures !Blocked(ps, keep, keep)
  {
  }

  lemma SurvivorWantsItsOwn(t: Tables, lists: Lists, u: Tables, id: PatchId)
    requires Survives(t, lists, u) && DistinctFingerprints(t.patches) && DistinctFingerprints(u.patches)
    requires StillBlocked(t, lists, u) && Planned(u, lists, id)
    ensures Want(u, lists, id) == u.patches[id].fingerprint
  {
    hide Survives, Keeper, Blocked, KeeperTakes;
    SurvivorIs(t, lists, u, id);
    KeeperAgain(t, lists, u, id);
    TakesAgain(t, lists, u, id);
  }

  /** A row that can be merged now is, and loses its fingerprint. */
  lemma FreedIsCleared(t: Tables, lists: Lists, u: Tables, id: PatchId)
    requires Survives(t, lists, u) && DistinctFingerprints(t.patches) && DistinctFingerprints(u.patches)
    requires Planned(t, lists, id) && Blocked(t.patches, KeeperOf(t, lists, id), id)
    requires !Blocked(u.patches, KeeperOf(t, lists, id), id)
    ensures Rehashed(u, lists) != u.patches
  {
    KeeperIsNotBlocked(t.patches, KeeperOf(t, lists, id));
    hide Survives, Keeper, Blocked, KeeperTakes;
    SurvivorIs(t, lists, u, id);
    KeeperAgain(t, lists, u, id);
    assert Want(u, lists, id) == None;
    assert Rehashed(u, lists)[id].fingerprint == None;
  }

  lemma MergedWantsNone(u: Tables, lists: Lists, p: (PatchId, PatchId))
    requires MergePair(u, lists, p)
    ensures Want(u, lists, p.1) == None
  {
  }

  lemma NothingToRewrite(u: Tables, lists: Lists)
    requires forall id | Planned(u, lists, id) :: Want(u, lists, id) == u.patches[id].fingerprint
    ensures Rehashed(u, lists) == u.patches && MergesOf(u, lists) == []
  {
    hide Keeper, Blocked, KeeperTakes;
    MergesAreStored(u, lists);
    var pairs := AllPairs(MergesOf(u, lists));
    if pairs != [] {
      assert MergePair(u, lists, pairs[0]);
      MergedWantsNone(u, lists, pairs[0]);
    }
    NoPairsNoMerges(u, lists, NewHashes(u, lists));
  }

  lemma NothingLeftOver(t: Tables, lists: Lists)
    requires Consistent(t) && DistinctFingerprints(Rehashed(t, lists))
    ensures
      var u := Refingerprinted(t, lists);
      LeftoversFolded(u, lists, Leftovers(u.patches)) == u && AllTriaged(u.patches) == u.patches
  {
    var u := Refingerprinted(t, lists);
    var a, b, c := Stages(t, lists);
    forall l | l in Leftovers(u.patches) ensures Settled(u, lists, l) {
      FinalLeftoversSettled(b, lists, l);
    }
    AllSettledStayPut(u, lists, Leftovers(u.patches));
    TriagedTwice(c.patches);
  }

  ghost predicate SecondRunIsIdle(t: Tables, lists: Lists) {
    var u := Refingerprinted(t, lists);
    Rehashed(u, lists) == u.patches && MergesOf(u, lists) == [] && RefingerprintResult(u, lists) == u
  }

  /**
   A second run with the same lists changes nothing, not even a generation, and reports no merge,
   exactly when the first left every row blocked that it found blocked.
   */
  lemma SecondRunIsIdleIffStillBlocked(t: Tables, lists: Lists)
    requires Consistent(t) && DistinctFingerprints(Rehashed(t, lists))
    ensures SecondRunIsIdle(t, lists) <==> StillBlocked(t, lists, Refingerprinted(t, lists))
  {
    hide Consistent, DistinctFingerprints, Refingerprinted, Rehashed, Survives, Blocked, Keeper, Want;
    var u := Refingerprinted(t, lists);
    BothDistinct(t, lists);
    FirstRunSurvives(t, lists);
    if StillBlocked(t, lists, u) {
      forall id | Planned(u, lists, id) ensures Want(u, lists, id) == u.patches[id].fingerprint {
        SurvivorWantsItsOwn(t, lists, u, id);
      }
      NothingToRewrite(u, lists);
      NothingLeftOver(t, lists);
      IdleResult(u, lists);
    } else {
      var id :| && Planned(t, lists, id)
                && Blocked(t.patches, KeeperOf(t, lists, id), id) && !Blocked(u.patches, KeeperOf(t, lists, id), id);
      FreedIsCleared(t, lists, u, id);
    }
  }

  lemma BothDistinct(t: Tables, lists: Lists)
    requires Consistent(t) && DistinctFingerprints(Rehashed(t, lists))
    ensures DistinctFingerprints(t.patches) && DistinctFingerprints(Refingerprinted(t, lists).patches)
  {
    RefingerprintKeepsConsistent(t, lists);
  }

  lemma IdleResult(u: Tables, lists: Lists)
    requires Rehashed(u, lists) == u.patches && MergesOf(u, lists) == []
    requires LeftoversFolded(u, lists, Leftovers(u.patches)) == u && AllTriaged(u.patches) == u.patches
    ensures RefingerprintResult(u, lists) == u
  {
    hide Rehashed, MergesOf, LeftoversFolded, AllTriaged, Leftovers, DistinctFingerprints;
    assert u.(patches := Rehashed(u, lists)) == u;
  }

  /** So it is where no group hits the fold-loop branch. */
  lemma SecondRunChangesNothing(t: Tables, lists: Lists)
    requires Consistent(t) && DistinctFingerprints(Rehashed(t, lists)) && NoneBlocked(t, lists)
    ensures SecondRunIsIdle(t, lists)
  {
    hide SecondRunIsIdle;
    SecondRunIsIdleIffStillBlocked(t, lists);
  }

  lemma {:induction false} NoPairsNoMerges(t: Tables, lists: Lists, hashes: seq<Fingerprint>)
    requires AllPairs(Merges(t, lists, hashes)) == []
    ensures Merges(t, lists, hashes) == []
    decreases |hashes|
  {
    if hashes != [] {
      var before := Merges(t, lists, hashes[..|hashes| - 1]);
      var m := GroupMerge(t, lists, hashes[|hashes| - 1]);
      AllPairsAppend(before, m);
      if m.into == [] { NoPairsNoMerges(t, lists, hashes[..|hashes| - 1]); }
    }
  }

  lemma TriagedTwice(ps: Patches)
    ensures AllTriaged(AllTriaged(ps)) == AllTriaged(ps)
  {
    forall id | id in ps ensures AllTriaged(AllTriaged(ps))[id] == AllTriaged(ps)[id] {
      assert AllTriaged(ps)[id] == Triaged(ps[id]);
    }
  }
}
