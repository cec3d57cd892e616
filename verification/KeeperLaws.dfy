/**
 Who keeps a fingerprint that several recomputed rows come to share (src/balancePatches.ts), said of the
 tables before and after: the active rollout's patch, else the earliest published one, else the earliest that
 counts as balance, else the earliest of all. From it, that an ignore does not fold the balance patch it
 was aimed at into the pending one being triaged.
 */
module KeeperLaws {
  import opened Wrappers
  import opened Inventories
  import opened PointerForest
  import opened BalanceTables
  import opened BalanceFold
  import opened RowOrder
  import opened BalancePatches
  import opened RefingerprintLaws
  import opened RefingerprintAgain
  import opened RefingerprintCases
  import opened BalanceTriage

  // ---------- who shares a fingerprint, and who comes first ----------

  /** A detected row that has a fingerprint and inputs to compute it from. */
  predicate Recomputed(p: Patch) {
    p.source == Detected && p.fingerprint.Some? && p.inputs.Some?
  }

  /** Its inputs read back, and hash to `fp` under the new lists. */
  predicate ComesTo(p: Patch, lists: Lists, fp: Fingerprint) {
    && p.inputs.Some? && p.inputs.value.Readable?
    && FingerprintOf(WithoutIgnored(p.inputs.value.inventory, lists.ignored), lists.versionless) == fp
  }

  /** The recomputed rows that are to have `fp`. */
  function Sharers(t: Tables, lists: Lists, fp: Fingerprint): set<PatchId> {
    set x | x in t.patches && Recomputed(t.patches[x]) && ComesTo(t.patches[x], lists, fp)
  }

  /** `m` was seen before every other of `ids`; of two seen at once it has the lower id. */
  predicate Earliest(t: Tables, ids: set<PatchId>, m: PatchId)
    requires ids <= t.patches.Keys
  {
    m in ids
    && forall x | x in ids && x != m ::
         var seen, other := t.patches[m].firstSeen, t.patches[x].firstSeen;
         seen < other || (seen == other && m < x)
  }

  predicate Preferred(t: Tables, lists: Lists, fp: Fingerprint, m: PatchId) {
    var ids := Sharers(t, lists, fp);
    var public := set x | x in ids && t.patches[x].publishedAt.Some?;
    var balance := set x | x in ids && (t.patches[x].triage == Balance || t.patches[x].triage == Untriaged);
    if t.rollout.Some? && t.rollout.value in ids then m == t.rollout.value
    else if public != {} then Earliest(t, public, m)
    else if balance != {} then Earliest(t, balance, m)
    else Earliest(t, ids, m)
  }

  /** `m` is folded by way of `x`, so that `x` cannot be folded into `m`, and goes on past it. */
  ghost predicate FoldedThrough(t: Tables, m: PatchId, x: PatchId) {
    x != m && Passes(FoldPointers(t.patches), m, x) && Effective(t.patches, m) != x
  }

  lemma EarliestExists(t: Tables, ids: set<PatchId>)
    requires ids <= t.patches.Keys && ids != {}
    ensures exists m :: Earliest(t, ids, m)
  {
    FirstExists(SeenAt(t.patches), ids);
    var m :| IsFirst(SeenAt(t.patches), ids, m);
    assert Earliest(t, ids, m);
  }

  /** Rows that share a hash always have a preferred one. */
  lemma SomeoneIsPreferred(t: Tables, lists: Lists, fp: Fingerprint)
    requires Sharers(t, lists, fp) != {}
    ensures exists m :: Preferred(t, lists, fp, m)
  {
    var ids := Sharers(t, lists, fp);
    var public := set x | x in ids && t.patches[x].publishedAt.Some?;
    var balance := set x | x in ids && (t.patches[x].triage == Balance || t.patches[x].triage == Untriaged);
    var among := if public != {} then public else if balance != {} then balance else ids;
    EarliestExists(t, among);
    var m :| Earliest(t, among, m);
    var keep := if t.rollout.Some? && t.rollout.value in ids then t.rollout.value else m;
    assert Preferred(t, lists, fp, keep);
  }

  // ---------- the keeper is the preferred one ----------

  lemma GroupIsSharers(t: Tables, lists: Lists, fp: Fingerprint)
    ensures forall x :: x in Group(t, lists, fp) <==> x in Sharers(t, lists, fp)
    ensures forall x | x in Sharers(t, lists, fp) :: Planned(t, lists, x) && HashOf(t.patches, x, lists) == Some(fp)
  {
    forall x ensures x in Group(t, lists, fp) <==> x in Sharers(t, lists, fp) {
      assert x in Rows(t.patches) <==> x in RowIds(t.patches);
    }
  }

  /** The first found of those wanted is the earliest of them. */
  lemma FoundIsEarliest(t: Tables, ids: seq<PatchId>, wanted: set<PatchId>, among: set<PatchId>, m: PatchId)
    requires Sorted(SeenAt(t.patches), ids) && among <= t.patches.Keys
    requires forall x :: x in among <==> x in ids && x in wanted
    requires Earliest(t, among, m)
    ensures Find(ids, wanted) == Some(m)
  {
    FindIsFirst(SeenAt(t.patches), ids, wanted);
    assert m in ids && m in wanted;
    var found := Find(ids, wanted).value;
    assert found in among;
  }

  lemma {:induction false} NoneFound(ids: seq<PatchId>, wanted: set<PatchId>)
    requires forall x | x in ids :: x !in wanted
    ensures Find(ids, wanted).None?
  {
    if ids != [] {
      var head := ids[0];
      assert head in ids;
      NoneFound(ids[1..], wanted);
    }
  }

  lemma HeadIsEarliest(t: Tables, ids: seq<PatchId>, among: set<PatchId>, m: PatchId)
    requires Sorted(SeenAt(t.patches), ids) && among <= t.patches.Keys
    requires forall x :: x in among <==> x in ids
    requires Earliest(t, among, m)
    ensures ids != [] && ids[0] == m
  {
    FirstIsFirst(SeenAt(t.patches), ids);
    assert ids[0] in among;
  }

  /** The choice among the rows of a group in which, of the published and the balance rows, these are the ones. */
  lemma ChoiceIsEarliest(t: Tables, ids: seq<PatchId>, all: set<PatchId>, public: set<PatchId>,
                         balance: set<PatchId>, holder: Option<PatchId>, m: PatchId)
    requires Sorted(SeenAt(t.patches), ids) && all <= t.patches.Keys && public <= all && balance <= all
    requires forall x :: x in all <==> x in ids
    requires forall x :: x in public <==> x in ids && x in Published(t.patches)
    requires forall x :: x in balance <==> x in ids && x in BalanceRows(t.patches)
    requires holder.Some? ==> holder.value in RowIds(t.patches)
    requires t.rollout.None? || t.rollout.value !in all
    requires Earliest(t, if public != {} then public else if balance != {} then balance else all, m)
    ensures ChooseKeeper(t.patches, t.rollout, holder, ids) == m
  {
    hide Sorted, SeenAt, Published, BalanceRows, Earliest, Find, RowIds;
    NoneFound(ids, if t.rollout.Some? then {t.rollout.value} else {});
    if public != {} {
      FoundIsEarliest(t, ids, Published(t.patches), public, m);
    } else {
      NoneFound(ids, Published(t.patches));
      if balance != {} {
        FoundIsEarliest(t, ids, BalanceRows(t.patches), balance, m);
      } else {
        NoneFound(ids, BalanceRows(t.patches));
        HeadIsEarliest(t, ids, all, m);
      }
    }
  }

  lemma RolloutIsChosen(t: Tables, ids: seq<PatchId>, holder: Option<PatchId>)
    requires t.rollout.Some? && t.rollout.value in ids
    requires holder.Some? ==> holder.value in RowIds(t.patches)
    ensures ChooseKeeper(t.patches, t.rollout, holder, ids) == t.rollout.value
  {
    var found := Find(ids, {t.rollout.value});
    assert found.Some? ==> found.value in {t.rollout.value};
  }

  lemma PreferredIsChosen(t: Tables, lists: Lists, fp: Fingerprint, m: PatchId)
    requires Preferred(t, lists, fp, m)
    requires forall h | h in t.patches && t.patches[h].fingerprint == Some(fp) :: Recomputed(t.patches[h])
    ensures Keeper(t, lists, fp) == m
  {
    var ps, group, ids := t.patches, Group(t, lists, fp), Sharers(t, lists, fp);
    var public := set x | x in ids && ps[x].publishedAt.Some?;
    var balance := set x | x in ids && (ps[x].triage == Balance || ps[x].triage == Untriaged);
    GroupIsSharers(t, lists, fp);
    GroupSorted(t, lists, fp);
    HoldersAreRows(t, fp);
    InBothSets(t, ids, public, balance);
    hide Group, Sharers, Sorted, SeenAt, Published, BalanceRows, Earliest, RowIds, ChooseKeeper;
    if t.rollout.Some? && t.rollout.value in ids {
      RolloutIsChosen(t, group, Holder(ps, fp));
    } else {
      ChoiceIsEarliest(t, group, ids, public, balance, Holder(ps, fp), m);
    }
  }

  lemma HoldersAreRows(t: Tables, fp: Fingerprint)
    requires forall h | h in t.patches && t.patches[h].fingerprint == Some(fp) :: Recomputed(t.patches[h])
    ensures Holder(t.patches, fp).Some? ==> Holder(t.patches, fp).value in RowIds(t.patches)
  {
  }

  lemma InBothSets(t: Tables, ids: set<PatchId>, public: set<PatchId>, balance: set<PatchId>)
    requires ids <= t.patches.Keys
    requires public == set x | x in ids && t.patches[x].publishedAt.Some?
    requires balance == set x | x in ids && (t.patches[x].triage == Balance || t.patches[x].triage == Untriaged)
    ensures forall x :: x in public <==> x in ids && x in Published(t.patches)
    ensures forall x :: x in balance <==> x in ids && x in BalanceRows(t.patches)
  {
  }

  // ---------- what becomes of the rows that share a fingerprint ----------

  /** What a refingerprint makes of the rows that come to `fp` when `m` keeps it. */
  ghost predicate KeptBy(t: Tables, lists: Lists, fp: Fingerprint, m: PatchId, u: Tables) {
    && u.patches.Keys == t.patches.Keys
    && forall x | x in Sharers(t, lists, fp) && x != m ::
         && (FoldedThrough(t, m, x) ==> u.patches[x] == t.patches[x])
         && (!FoldedThrough(t, m, x) ==> u.patches[x].fingerprint.None?)
         && (!FoldedThrough(t, m, x) && m !in FoldPointers(t.patches) ==> Effective(u.patches, x) == m)
  }

  lemma OtherIsMerged(t: Tables, lists: Lists, fp: Fingerprint, m: PatchId, x: PatchId)
    requires Consistent(t) && DistinctFingerprints(Rehashed(t, lists)) && Keeper(t, lists, fp) == m
    requires x in Sharers(t, lists, fp) && x != m && !FoldedThrough(t, m, x)
    ensures Refingerprinted(t, lists).patches[x].fingerprint.None?
    ensures m !in FoldPointers(t.patches) ==> Effective(Refingerprinted(t, lists).patches, x) == m
  {
    hide Refingerprinted, Rehashed, DistinctFingerprints, Consistent;
    GroupIsSharers(t, lists, fp);
    KeeperStored(t, lists, fp);
    assert MergePair(t, lists, (m, x));
    PairIsMerged(t, lists, (m, x));
    RefingerprintOutcome(t, lists);
    MergedWantsNone(t, lists, (m, x));
    RehashedTo(t, lists, x);
    MergedCountForKeeper(t, lists, (m, x));
  }

  lemma RehashedTo(t: Tables, lists: Lists, x: PatchId)
    requires Planned(t, lists, x)
    ensures x in Rehashed(t, lists) && Rehashed(t, lists)[x].fingerprint == Want(t, lists, x)
  {
  }

  lemma WantOf(t: Tables, lists: Lists, fp: Fingerprint, m: PatchId, x: PatchId)
    requires Planned(t, lists, x) && HashOf(t.patches, x, lists) == Some(fp) && Keeper(t, lists, fp) == m
    ensures FoldedThrough(t, m, x) ==> Want(t, lists, x) == t.patches[x].fingerprint
    ensures x == m ==> Want(t, lists, x) == if KeeperTakes(t, lists, fp) then Some(fp) else t.patches[x].fingerprint
  {
  }

  lemma LoopingStays(t: Tables, lists: Lists, fp: Fingerprint, m: PatchId, x: PatchId)
    requires Consistent(t) && DistinctFingerprints(Rehashed(t, lists)) && Keeper(t, lists, fp) == m
    requires x in Sharers(t, lists, fp) && FoldedThrough(t, m, x)
    ensures Refingerprinted(t, lists).patches[x] == t.patches[x]
  {
    hide Refingerprinted, Rehashed, DistinctFingerprints, Consistent, Want;
    GroupIsSharers(t, lists, fp);
    FirstRunSurvives(t, lists);
    WantOf(t, lists, fp, m, x);
    RehashedTo(t, lists, x);
  }

  lemma KeeperKeeps(t: Tables, lists: Lists, fp: Fingerprint, m: PatchId)
    requires Consistent(t) && DistinctFingerprints(Rehashed(t, lists)) && Keeper(t, lists, fp) == m
    ensures KeptBy(t, lists, fp, m, Refingerprinted(t, lists))
  {
    hide Refingerprinted, Rehashed, DistinctFingerprints, Consistent, Keeper, FoldedThrough, FoldPointers, Sharers;
    RefingerprintKeepsKeys(t, lists);
    SharersAreStored(t, lists, fp);
    var u := Refingerprinted(t, lists);
    forall x | x in Sharers(t, lists, fp) && x != m
      ensures FoldedThrough(t, m, x) ==> u.patches[x] == t.patches[x]
      ensures !FoldedThrough(t, m, x) ==> u.patches[x].fingerprint.None?
      ensures !FoldedThrough(t, m, x) && m !in FoldPointers(t.patches) ==> Effective(u.patches, x) == m
    {
      if FoldedThrough(t, m, x) { LoopingStays(t, lists, fp, m, x); } else { OtherIsMerged(t, lists, fp, m, x); }
    }
  }

  lemma RefingerprintKeepsKeys(t: Tables, lists: Lists)
    requires Consistent(t) && DistinctFingerprints(Rehashed(t, lists))
    ensures Refingerprinted(t, lists).patches.Keys == t.patches.Keys
  {
    RefingerprintKeepsIds(t, lists);
  }

  lemma SharersAreStored(t: Tables, lists: Lists, fp: Fingerprint)
    ensures Sharers(t, lists, fp) <= t.patches.Keys
  {
  }

  /**
   Of the rows that share a hash no other row holds the preferred one has it afterwards and is otherwise as it
   was, in triage and in public. A row it is folded through stays as it is, and when that one holds the hash
   already the preferred row keeps its own. Every other loses its fingerprint and counts for the preferred one,
   unless that is folded itself.
   */
  lemma PreferredKeeps(t: Tables, lists: Lists, fp: Fingerprint, m: PatchId)
    requires Consistent(t) && DistinctFingerprints(Rehashed(t, lists)) && Preferred(t, lists, fp, m)
    requires forall h | h in t.patches && t.patches[h].fingerprint == Some(fp) :: Recomputed(t.patches[h])
    ensures
      var u := Refingerprinted(t, lists);
      var taken := exists x :: x in Sharers(t, lists, fp) && FoldedThrough(t, m, x)
                               && t.patches[x].fingerprint == Some(fp);
      && KeptBy(t, lists, fp, m, u) && m in t.patches
      && u.patches[m] == if taken then t.patches[m] else t.patches[m].(fingerprint := Some(fp))
  {
    PreferredIsSharer(t, lists, fp, m);
    hide Refingerprinted, Rehashed, DistinctFingerprints, Consistent, Want, Preferred, KeptBy, KeeperTakes;
    PreferredIsChosen(t, lists, fp, m);
    KeeperKeeps(t, lists, fp, m);
    GroupIsSharers(t, lists, fp);
    FirstRunSurvives(t, lists);
    WantOf(t, lists, fp, m, m);
    RehashedTo(t, lists, m);
    TakesUnlessHeld(t, lists, fp, m);
  }

  lemma PreferredIsSharer(t: Tables, lists: Lists, fp: Fingerprint, m: PatchId)
    requires Preferred(t, lists, fp, m)
    ensures m in Sharers(t, lists, fp)
  {
  }

  lemma TakesUnlessHeld(t: Tables, lists: Lists, fp: Fingerprint, m: PatchId)
    requires Keeper(t, lists, fp) == m
    ensures KeeperTakes(t, lists, fp) <==>
      !exists x :: x in Sharers(t, lists, fp) && FoldedThrough(t, m, x) && t.patches[x].fingerprint == Some(fp)
  {
    GroupIsSharers(t, lists, fp);
    forall x ensures Blocked(t.patches, m, x) <==> FoldedThrough(t, m, x) {}
  }

  /** A row that is not recomputed and holds the hash is as it was, and keeps it from all that are. */
  lemma OutsiderKeeps(t: Tables, lists: Lists, fp: Fingerprint, h: PatchId)
    requires Consistent(t) && DistinctFingerprints(Rehashed(t, lists))
    requires h in t.patches && t.patches[h].fingerprint == Some(fp) && !Recomputed(t.patches[h])
    ensures
      var u := Refingerprinted(t, lists);
      KeptBy(t, lists, fp, h, u) && u.patches[h] == t.patches[h]
  {
    hide Refingerprinted, Rehashed, KeptBy, Want;
    HolderKeeps(t, lists, fp, h);
    KeeperKeeps(t, lists, fp, h);
    FirstRunSurvives(t, lists);
    UntouchedRow(t, lists, h);
  }

  lemma UntouchedRow(t: Tables, lists: Lists, x: PatchId)
    requires x in t.patches && !Planned(t, lists, x)
    ensures x in Rehashed(t, lists) && Rehashed(t, lists)[x] == t.patches[x]
  {
  }

  // ---------- patches merged before ----------

  /** A detected patch that lost its fingerprint to another before it could be triaged. */
  predicate LeftOver(p: Patch) {
    && p.source == Detected && p.fingerprint.None? && p.inputs.Some?
    && (p.triage == Untriaged || (p.triage == Pending && p.foldedInto.None?))
  }

  /** Of two patches with one end, both follow when that end is folded. */
  lemma EndsStayTogether(u: Tables, lists: Lists, other: PatchId, x: PatchId, y: PatchId)
    requires Consistent(u) && other in u.patches && !IsFolded(u.patches[other])
    requires Effective(u.patches, x) == Effective(u.patches, y)
    ensures
      var v := LeftoverFolded(u, lists, other);
      Effective(v.patches, x) == Effective(v.patches, y)
  {
    var m := FoldPointers(u.patches);
    var v := LeftoverFolded(u, lists, other);
    if v != u {
      FoldReroutes(u, other, Holder(u.patches, HashOf(u.patches, other, lists).value).value);
      RootOfEnd(m, other);
      EndsAt(m, x);
      EndsAt(m, y);
      forall z | z == x || z == y ensures Passes(m, z, other) <==> Root(m, z) == other {
        if Passes(m, z, other) { PassesSameRoot(m, z, other); }
        if Root(m, z) == other { PassesEnd(m, z); }
      }
    }
  }

  /** Its turn brings a leftover to the end of whoever holds its hash. */
  lemma TurnJoins(u: Tables, lists: Lists, l: PatchId, fp: Fingerprint, h: PatchId)
    requires Consistent(u) && l in u.patches && !IsFolded(u.patches[l])
    requires HashOf(u.patches, l, lists) == Some(fp) && Holds(u.patches, h, fp) && h != l
    ensures
      var v := LeftoverFolded(u, lists, l);
      Effective(v.patches, l) == Effective(v.patches, h)
  {
    var m := FoldPointers(u.patches);
    HolderIs(u.patches, h, fp);
    RootOfEnd(m, l);
    if Effective(u.patches, h) != l {
      EndsAt(m, h);
      if Passes(m, h, l) { PassesSameRoot(m, h, l); }
      FoldReroutes(u, l, h);
    }
  }

  lemma {:induction false} LeftoversJoin(b: Tables, lists: Lists, ids: seq<PatchId>, l: PatchId, fp: Fingerprint,
                                         h: PatchId)
    requires Consistent(b) && l in ids && forall x | x in ids :: x in LeftoverIds(b.patches)
    requires forall i, j | 0 <= i < j < |ids| :: ids[i] != ids[j]
    requires HashOf(b.patches, l, lists) == Some(fp) && Holds(b.patches, h, fp)
    ensures
      var c := LeftoversFolded(b, lists, ids).patches;
      Effective(c, l) == Effective(c, h)
    decreases |ids|
  {
    hide Consistent, LeftoverFolded;
    var last, before := ids[|ids| - 1], ids[..|ids| - 1];
    assert last !in before && last in LeftoverIds(b.patches) && l in LeftoverIds(b.patches);
    var u := LeftoversFolded(b, lists, before);
    LeftoversFoldOnly(b, lists, before);
    StillUnfolded(b, u, last);
    if l == last {
      FoldsOnlyHolds(b, u, h, fp);
      TurnJoins(u, lists, l, fp, h);
    } else {
      assert l in before;
      LeftoversJoin(b, lists, before, l, fp, h);
      EndsStayTogether(u, lists, last, l, h);
    }
  }

  lemma StillUnfolded(b: Tables, u: Tables, x: PatchId)
    requires FoldsOnly(b, u) && Consistent(b) && x in LeftoverIds(b.patches) && u.patches[x] == b.patches[x]
    ensures x in u.patches && !IsFolded(u.patches[x])
  {
    assert PublicationSound(b.patches[x]);
  }

  /**
   What was merged before is folded with whoever holds its hash now, and counts for the same patch; when it was
   never triaged and stays on its own it becomes a balance patch.
   */
  lemma LeftOversJoinTheHolder(t: Tables, lists: Lists, l: PatchId, fp: Fingerprint, h: PatchId)
    requires Consistent(t) && DistinctFingerprints(Rehashed(t, lists))
    requires l in t.patches && LeftOver(t.patches[l])
    ensures
      var u := Refingerprinted(t, lists).patches;
      && l in u && (t.patches[l].triage == Untriaged ==> IsFolded(u[l]) || u[l].triage == Balance)
      && (ComesTo(t.patches[l], lists, fp) && h in u && u[h].fingerprint == Some(fp) ==>
            Effective(u, l) == Effective(u, h))
  {
    hide Consistent, DistinctFingerprints, Refingerprinted, AllPairs, MergesOf, MergePair, MergedPairs;
    hide LeftoversFolded, Rehashed, Planned, Effective;
    var a, b, c := Stages(t, lists);
    LeftOverIsNoRow(t, lists, l);
    UntouchedRow(t, lists, l);
    MergesAreStored(t, lists);
    NotAPair(t, lists, l);
    PairsPoint(t, lists, a, AllPairs(MergesOf(t, lists)));
    MergedInOrder(t, lists);
    var ids := Leftovers(b.patches);
    assert l in ids;
    assert AllTriaged(c.patches)[l] == Triaged(c.patches[l]);
    TriagedChangesTriageOnly(c.patches);
    SameEnds(c.patches, AllTriaged(c.patches), l, h);
    if ComesTo(t.patches[l], lists, fp) && Holds(AllTriaged(c.patches), h, fp) {
      FoldsOnlyHolds(b, c, h, fp);
      OnceEach(b.patches);
      LeftoversJoin(b, lists, ids, l, fp, h);
    }
  }

  lemma LeftOverIsNoRow(t: Tables, lists: Lists, l: PatchId)
    requires l in t.patches && LeftOver(t.patches[l])
    ensures !Planned(t, lists, l)
  {
  }

  lemma OnceEach(ps: Patches)
    ensures
      var ids := Leftovers(ps);
      forall i, j | 0 <= i < j < |ids| :: ids[i] != ids[j]
  {
  }

  lemma SameEnds(ps: Patches, qs: Patches, x: PatchId, y: PatchId)
    requires FoldPointers(ps) == FoldPointers(qs)
    ensures Effective(ps, x) == Effective(qs, x) && Effective(ps, y) == Effective(qs, y)
  {
  }

  // ---------- an ignore and the patch it was aimed at ----------

  /** No folded patch can be given what the others of its group are merged into: neither one that holds the
      hash `x` comes to without being recomputed, nor the active rollout's. */
  ghost predicate KeepersUnfolded(t: Tables, lists: Lists, x: PatchId)
    requires x in t.patches
  {
    && (t.rollout.Some? && t.rollout.value in t.patches ==> !IsFolded(t.patches[t.rollout.value]))
    && forall h, fp | h in t.patches && t.patches[h].fingerprint == Some(fp) && ComesTo(t.patches[x], lists, fp) ::
         !IsFolded(t.patches[h]) || Recomputed(t.patches[h])
  }

  lemma UnfoldedIsNotThrough(t: Tables, m: PatchId, x: PatchId)
    requires m !in FoldPointers(t.patches)
    ensures !FoldedThrough(t, m, x)
  {
    PassesStep(FoldPointers(t.patches), m, x);
  }

  /** What is neither recomputed nor left over from an older merge is as it was. */
  lemma OthersStay(t: Tables, lists: Lists, x: PatchId)
    requires Consistent(t) && DistinctFingerprints(Rehashed(t, lists)) && x in t.patches
    requires !Planned(t, lists, x) && t.patches[x].triage == Balance
    ensures Refingerprinted(t, lists).patches[x] == t.patches[x]
  {
    hide Consistent, DistinctFingerprints, Refingerprinted, AllPairs, MergesOf, MergePair, MergedPairs;
    hide Rehashed, LeftoversFolded, Planned;
    var a, b, c := Stages(t, lists);
    UntouchedRow(t, lists, x);
    MergesAreStored(t, lists);
    NotAPair(t, lists, x);
    PairsPoint(t, lists, a, AllPairs(MergesOf(t, lists)));
    MergedInOrder(t, lists);
    LeftoversSpare(b, lists, Leftovers(b.patches), x);
    assert AllTriaged(c.patches)[x] == Triaged(c.patches[x]);
  }

  /** A balance patch a refingerprint merges counts for a patch that is not `id`, when `id` is pending. */
  lemma NotMergedInto(t: Tables, lists: Lists, x: PatchId, id: PatchId)
    requires Consistent(t) && DistinctFingerprints(Rehashed(t, lists)) && x in t.patches && id in t.patches
    requires t.patches[x].triage == Balance && KeepersUnfolded(t, lists, x)
    requires t.patches[id].triage == Pending && t.patches[id].source == Detected && t.patches[id].inputs.Some?
    requires t.rollout != Some(id)
    ensures Effective(Refingerprinted(t, lists).patches, x) != id
  {
    if !Planned(t, lists, x) {
      OthersStay(t, lists, x);
      RootOfEnd(FoldPointers(Refingerprinted(t, lists).patches), x);
    } else {
      var fp := HashOf(t.patches, x, lists).value;
      GroupIsSharers(t, lists, fp);
      SharerNotMergedInto(t, lists, fp, x, id);
    }
  }

  lemma SharerNotMergedInto(t: Tables, lists: Lists, fp: Fingerprint, x: PatchId, id: PatchId)
    requires Consistent(t) && DistinctFingerprints(Rehashed(t, lists)) && x in Sharers(t, lists, fp) && id in t.patches
    requires t.patches[x].triage == Balance && KeepersUnfolded(t, lists, x)
    requires t.patches[id].triage == Pending && t.patches[id].source == Detected && t.patches[id].inputs.Some?
    requires t.rollout != Some(id)
    ensures Effective(Refingerprinted(t, lists).patches, x) != id
  {
    var outside := exists h :: h in t.patches && t.patches[h].fingerprint == Some(fp) && !Recomputed(t.patches[h]);
    if outside {
      var h :| h in t.patches && t.patches[h].fingerprint == Some(fp) && !Recomputed(t.patches[h]);
      hide Refingerprinted, Rehashed, DistinctFingerprints, Consistent, FoldedThrough;
      OutsiderKeeps(t, lists, fp, h);
      UnfoldedIsNotThrough(t, h, x);
    } else {
      SomeoneIsPreferred(t, lists, fp);
      var m :| Preferred(t, lists, fp, m);
      hide Refingerprinted, Rehashed, DistinctFingerprints, Consistent, Preferred, FoldedThrough, Sharers;
      PreferredIsNot(t, lists, fp, x, id, m);
      CountsForPreferred(t, lists, fp, x, m);
    }
  }

  /** What shares a hash with an unfolded preferred row counts for it; so does that row. */
  lemma CountsForPreferred(t: Tables, lists: Lists, fp: Fingerprint, x: PatchId, m: PatchId)
    requires Consistent(t) && DistinctFingerprints(Rehashed(t, lists)) && x in Sharers(t, lists, fp)
    requires Preferred(t, lists, fp, m) && m in t.patches && m !in FoldPointers(t.patches)
    requires forall h | h in t.patches && t.patches[h].fingerprint == Some(fp) :: Recomputed(t.patches[h])
    ensures Effective(Refingerprinted(t, lists).patches, x) == m
  {
    hide Refingerprinted, Rehashed, DistinctFingerprints, Consistent, Preferred, FoldedThrough, Sharers;
    PreferredKeeps(t, lists, fp, m);
    UnfoldedIsNotThrough(t, m, x);
    var ps := Refingerprinted(t, lists).patches;
    if m == x { RootOfEnd(FoldPointers(ps), x); }
  }

  lemma PreferredIsNot(t: Tables, lists: Lists, fp: Fingerprint, x: PatchId, id: PatchId, m: PatchId)
    requires Consistent(t) && id in t.patches && t.patches[id].triage == Pending && t.rollout != Some(id)
    requires x in Sharers(t, lists, fp) && t.patches[x].triage == Balance && KeepersUnfolded(t, lists, x)
    requires Preferred(t, lists, fp, m)
    ensures m != id && m in t.patches && m !in FoldPointers(t.patches)
  {
    var ids := Sharers(t, lists, fp);
    var public := set x | x in ids && t.patches[x].publishedAt.Some?;
    var balance := set x | x in ids && (t.patches[x].triage == Balance || t.patches[x].triage == Untriaged);
    assert x in balance;
    assert PublicationSound(t.patches[m]);
    if !(t.rollout.Some? && t.rollout.value in ids) {
      assert m in public || m in balance;
    }
  }

  lemma JoinMovesNot(t: Tables, id: PatchId, target: PatchId)
    requires Consistent(t) && id in t.patches
    ensures Effective(EndJoined(t, id, target).patches, target) == Effective(t.patches, target)
  {
    var end := Effective(t.patches, id);
    if end != Effective(t.patches, target) && end in t.patches && CanFold(t.patches, end, target) {
      FoldReroutes(t, end, target);
    }
  }

  /**
   An ignore does not fold the balance patch it was aimed at into the pending one that was triaged: that one
   never ends up as what the target counts for, when no folded patch stands to keep the target's hash.
   */
  lemma IgnoreKeepsItsTarget(t: Tables, id: PatchId, q: IgnoreRequest)
    requires Consistent(t) && IgnoreSucceeds(t, id, q)
    requires
      var (target, plugins) := Ignorable(t, id, q).value;
      && target in t.patches && t.patches[target].triage == Balance
      && KeepersUnfolded(t, q.ListsWith(t.ignored + plugins), target)
    ensures Effective(Ignored(t, id, q).patches, Ignorable(t, id, q).value.0) != id
  {
    var (target, plugins) := Ignorable(t, id, q).value;
    IgnorableTarget(t, id, q);
    RewrittenIsConsistent(t, plugins, q);
    ListedKeepsConsistent(t, plugins);
    NotMergedInto(Listed(t, plugins), q.ListsWith(t.ignored + plugins), target, id);
    JoinMovesNot(IgnoreRewritten(t, plugins, q), id, target);
  }

  /** No row that comes to `fp` lies on the way of one that may keep it. */
  ghost predicate NoneInTheWay(t: Tables, lists: Lists, fp: Fingerprint) {
    forall m, x | x in Sharers(t, lists, fp) && m in t.patches
                  && (m in Sharers(t, lists, fp) || t.patches[m].fingerprint == Some(fp)) ::
      !FoldedThrough(t, m, x)
  }

  /** A recomputed row has the hash of its inputs afterwards, or none. */
  lemma FingerprintIsCurrent(t: Tables, lists: Lists, fp: Fingerprint, x: PatchId)
    requires Consistent(t) && DistinctFingerprints(Rehashed(t, lists)) && x in Sharers(t, lists, fp)
    requires NoneInTheWay(t, lists, fp)
    ensures
      var u := Refingerprinted(t, lists).patches;
      x in u && (u[x].fingerprint == None || u[x].fingerprint == Some(fp))
  {
    hide Refingerprinted, Rehashed, DistinctFingerprints, Consistent, FoldedThrough, Sharers;
    SharersAreStored(t, lists, fp);
    if h :| h in t.patches && t.patches[h].fingerprint == Some(fp) && !Recomputed(t.patches[h]) {
      SharerIsRecomputed(t, lists, fp, x);
      OutsiderKeeps(t, lists, fp, h);
    } else {
      SomeoneIsPreferred(t, lists, fp);
      var m :| Preferred(t, lists, fp, m);
      PreferredIsSharer(t, lists, fp, m);
      hide Preferred;
      PreferredKeeps(t, lists, fp, m);
    }
  }

  lemma SharerIsRecomputed(t: Tables, lists: Lists, fp: Fingerprint, x: PatchId)
    requires x in Sharers(t, lists, fp)
    ensures x in t.patches && Recomputed(t.patches[x])
  {
  }

  lemma JoinKeepsFingerprints(t: Tables, id: PatchId, target: PatchId)
    ensures EndJoined(t, id, target).patches.Keys == t.patches.Keys
    ensures forall x | x in t.patches :: EndJoined(t, id, target).patches[x].fingerprint == t.patches[x].fingerprint
  {
  }

  /** An ignore gives every such row the hash its inputs have without the plugins ignored from then on. */
  lemma IgnoreRehashes(t: Tables, id: PatchId, q: IgnoreRequest, fp: Fingerprint, x: PatchId)
    requires Consistent(t) && IgnoreSucceeds(t, id, q) && q.plugins.Some?
    requires
      var lists := Lists(q.versionless, q.knobsIgnored + t.ignored + q.plugins.value);
      NoneInTheWay(t, lists, fp) && x in Sharers(t, lists, fp)
    ensures
      var u := Ignored(t, id, q).patches;
      x in u && (u[x].fingerprint == None || u[x].fingerprint == Some(fp))
  {
    var (target, plugins) := Ignorable(t, id, q).value;
    var lists := q.ListsWith(t.ignored + plugins);
    assert plugins == q.plugins.value;
    assert lists == Lists(q.versionless, q.knobsIgnored + t.ignored + q.plugins.value);
    SameRows(t, Listed(t, plugins), lists, fp);
    ListedKeepsConsistent(t, plugins);
    hide NoneInTheWay, Refingerprinted, Rehashed, DistinctFingerprints, Consistent, EndJoined, Sharers;
    FingerprintIsCurrent(Listed(t, plugins), lists, fp, x);
    JoinKeepsFingerprints(IgnoreRewritten(t, plugins, q), id, target);
  }

  lemma SameRows(t: Tables, u: Tables, lists: Lists, fp: Fingerprint)
    requires u.patches == t.patches
    ensures Sharers(u, lists, fp) == Sharers(t, lists, fp)
    ensures NoneInTheWay(u, lists, fp) <==> NoneInTheWay(t, lists, fp)
  {
    assert forall m, x :: FoldedThrough(u, m, x) <==> FoldedThrough(t, m, x);
  }
}
