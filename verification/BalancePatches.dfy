/**
 Sightings and the boot refingerprint (src/balancePatches.ts): what each does
 to the tables, and the calls themselves.
 */
module BalancePatches {
  import opened Wrappers
  import opened Inventories
  import opened PointerForest
  import opened BalanceTables
  import opened BalanceFold
  import opened RowOrder

  datatype Lists = Lists(versionless: set<string>, ignored: set<string>)

  // ---------- the plan of a refingerprint ----------

  /** The rows whose fingerprint is recomputed. */
  function RowIds(ps: Patches): set<PatchId> {
    set id | id in ps && ps[id].source == Detected && ps[id].inputs.Some? && ps[id].fingerprint.Some?
  }

  function SeenAt(ps: Patches): map<PatchId, Time> {
    map id | id in ps :: ps[id].firstSeen
  }

  function Rows(ps: Patches): (r: seq<PatchId>)
    ensures forall x :: x in r <==> x in RowIds(ps)
  {
    InOrder(SeenAt(ps), RowIds(ps))
  }

  /** None for unreadable inputs: such a patch is left exactly as it is. */
  function HashOf(ps: Patches, id: PatchId, lists: Lists): Option<Fingerprint> {
    if id in ps && ps[id].inputs.Some? && ps[id].inputs.value.Readable? then
      Some(FingerprintOf(WithoutIgnored(ps[id].inputs.value.inventory, lists.ignored), lists.versionless))
    else None
  }

  /** The rows, in order, that hash to `fp` now. */
  function Members(ps: Patches, rows: seq<PatchId>, lists: Lists, fp: Fingerprint): (r: seq<PatchId>)
    ensures forall x :: x in r <==> x in rows && HashOf(ps, x, lists) == Some(fp)
  {
    if rows == [] then []
    else
      var n := |rows| - 1;
      assert rows == rows[..n] + [rows[n]];
      Members(ps, rows[..n], lists, fp) + if HashOf(ps, rows[n], lists) == Some(fp) then [rows[n]] else []
  }

  /** The new fingerprints, by first row that hashes to each. */
  function Hashes(ps: Patches, rows: seq<PatchId>, lists: Lists): (r: seq<Fingerprint>)
    ensures forall fp :: fp in r <==> exists x :: x in rows && HashOf(ps, x, lists) == Some(fp)
  {
    if rows == [] then []
    else
      var n := |rows| - 1;
      var before := Hashes(ps, rows[..n], lists);
      assert rows == rows[..n] + [rows[n]];
      match HashOf(ps, rows[n], lists)
      case None => before
      case Some(fp) =>
        assert rows[n] in rows && HashOf(ps, rows[n], lists) == Some(fp);
        if fp in before then before else before + [fp]
  }

  /** Array.prototype.find. */
  function Find(ids: seq<PatchId>, wanted: set<PatchId>): (r: Option<PatchId>)
    ensures r.Some? ==> r.value in ids && r.value in wanted
    ensures r.None? ==> forall x | x in ids :: x !in wanted
  {
    if ids == [] then None else if ids[0] in wanted then Some(ids[0]) else Find(ids[1..], wanted)
  }

  function Published(ps: Patches): set<PatchId> {
    set id | id in ps && ps[id].publishedAt.Some?
  }

  function BalanceRows(ps: Patches): set<PatchId> {
    set id | id in ps && CountsAsBalance(ps[id])
  }

  /** Who keeps the fingerprint of a group whose holder is `holder`. No group
      is empty: the 0 only makes the function total. */
  function ChooseKeeper(ps: Patches, rollout: Option<PatchId>, holder: Option<PatchId>,
                        ids: seq<PatchId>): (keep: PatchId)
    ensures ids != [] ==> keep in ids || (holder == Some(keep) && keep !in RowIds(ps))
  {
    if holder.Some? && holder.value !in RowIds(ps) then holder.value
    else
      var first := Find(ids, if rollout.Some? then {rollout.value} else {});
      if first.Some? then first.value
      else
        var public := Find(ids, Published(ps));
        if public.Some? then public.value
        else Find(ids, BalanceRows(ps)).GetOr(if ids == [] then 0 else ids[0])
  }

  ghost function Group(t: Tables, lists: Lists, fp: Fingerprint): seq<PatchId> {
    Members(t.patches, Rows(t.patches), lists, fp)
  }

  ghost function Keeper(t: Tables, lists: Lists, fp: Fingerprint): PatchId
  {
    ChooseKeeper(t.patches, t.rollout, Holder(t.patches, fp), Group(t, lists, fp))
  }

  /** Folding `id` into `keep` would loop: `keep` is folded through `id`. */
  ghost predicate Blocked(ps: Patches, keep: PatchId, id: PatchId) {
    id != keep && Passes(FoldPointers(ps), keep, id) && Effective(ps, keep) != id
  }

  /** No blocked member of the group holds its very fingerprint. */
  ghost predicate KeeperTakes(t: Tables, lists: Lists, fp: Fingerprint)
  {
    forall x | x in Group(t, lists, fp) && Blocked(t.patches, Keeper(t, lists, fp), x) ::
      t.patches[x].fingerprint != Some(fp)
  }

  ghost predicate Planned(t: Tables, lists: Lists, id: PatchId) {
    id in RowIds(t.patches) && HashOf(t.patches, id, lists).Some?
  }

  /** The fingerprint a recomputed row is to have; None for a merged one. */
  ghost function Want(t: Tables, lists: Lists, id: PatchId): Option<Fingerprint>
    requires Planned(t, lists, id)
  {
    var fp := HashOf(t.patches, id, lists).value;
    var keep := Keeper(t, lists, fp);
    if Blocked(t.patches, keep, id) then t.patches[id].fingerprint
    else if id == keep then if KeeperTakes(t, lists, fp) then Some(fp) else t.patches[id].fingerprint
    else None
  }

  ghost function Rehashed(t: Tables, lists: Lists): Patches {
    map id | id in t.patches ::
      if Planned(t, lists, id) then t.patches[id].(fingerprint := Want(t, lists, id)) else t.patches[id]
  }

  datatype Merge = Merge(keep: PatchId, into: seq<PatchId>)

  /** The members of a group that are folded into its keeper. */
  ghost function Others(ps: Patches, keep: PatchId, ids: seq<PatchId>): (r: seq<PatchId>)
    ensures forall x :: x in r <==> x in ids && x != keep && !Blocked(ps, keep, x)
  {
    if ids == [] then []
    else
      var n := |ids| - 1;
      Others(ps, keep, ids[..n]) + if ids[n] != keep && !Blocked(ps, keep, ids[n]) then [ids[n]] else []
  }

  ghost function GroupMerge(t: Tables, lists: Lists, fp: Fingerprint): Merge {
    var keep := Keeper(t, lists, fp);
    Merge(keep, Others(t.patches, keep, Group(t, lists, fp)))
  }

  ghost function Merges(t: Tables, lists: Lists, hashes: seq<Fingerprint>): seq<Merge> {
    if hashes == [] then []
    else
      var before := Merges(t, lists, hashes[..|hashes| - 1]);
      var m := GroupMerge(t, lists, hashes[|hashes| - 1]);
      if m.into == [] then before else before + [m]
  }

  /** One (keeper, merged patch) pair for each fold the merge makes, in order. */
  function Pairs(keep: PatchId, into: seq<PatchId>): seq<(PatchId, PatchId)> {
    if into == [] then [] else Pairs(keep, into[..|into| - 1]) + [(keep, into[|into| - 1])]
  }

  function AllPairs(merged: seq<Merge>): seq<(PatchId, PatchId)> {
    if merged == [] then []
    else
      var m := merged[|merged| - 1];
      AllPairs(merged[..|merged| - 1]) + Pairs(m.keep, m.into)
  }

  /** A merge is a fold, unless the keeper is already folded into the patch. */
  ghost function MergedPair(t: Tables, p: (PatchId, PatchId)): (r: Tables)
    ensures r.patches.Keys == t.patches.Keys
  {
    if Effective(t.patches, p.0) == p.1 then t else FoldedInto(t, p.1, p.0)
  }

  ghost function MergedPairs(t: Tables, pairs: seq<(PatchId, PatchId)>): (r: Tables)
    ensures r.patches.Keys == t.patches.Keys
  {
    if pairs == [] then t else MergedPair(MergedPairs(t, pairs[..|pairs| - 1]), pairs[|pairs| - 1])
  }

  /** Merged patches from before triage, and those an older backfill left pending. */
  function LeftoverIds(ps: Patches): set<PatchId> {
    set id | id in ps && ps[id].source == Detected && ps[id].fingerprint.None? && ps[id].inputs.Some?
             && (ps[id].triage == Untriaged || (ps[id].triage == Pending && ps[id].foldedInto.None?))
  }

  function Leftovers(ps: Patches): (r: seq<PatchId>)
    ensures forall x :: x in r <==> x in LeftoverIds(ps)
  {
    InOrder(map id | id in ps :: 0, LeftoverIds(ps))
  }

  /** A leftover is folded into whoever holds its fingerprint now. */
  ghost function LeftoverFolded(t: Tables, lists: Lists, id: PatchId): (r: Tables)
    ensures r.patches.Keys == t.patches.Keys
  {
    var fp := HashOf(t.patches, id, lists);
    var holder := if fp.Some? then Holder(t.patches, fp.value) else None;
    if holder.Some? && Effective(t.patches, holder.value) != id then FoldedInto(t, id, holder.value) else t
  }

  ghost function LeftoversFolded(t: Tables, lists: Lists, ids: seq<PatchId>): (r: Tables)
    ensures r.patches.Keys == t.patches.Keys
  {
    if ids == [] then t
    else LeftoverFolded(LeftoversFolded(t, lists, ids[..|ids| - 1]), lists, ids[|ids| - 1])
  }

  function Triaged(p: Patch): Patch {
    if p.source == Detected && p.fingerprint.None? && p.triage == Untriaged then p.(triage := Balance) else p
  }

  function AllTriaged(ps: Patches): Patches {
    map id | id in ps :: Triaged(ps[id])
  }

  ghost function NewHashes(t: Tables, lists: Lists): (r: seq<Fingerprint>)
    ensures forall fp | fp in r :: Group(t, lists, fp) != []
  {
    var r := Hashes(t.patches, Rows(t.patches), lists);
    assert forall fp | fp in r :: Group(t, lists, fp) != [] by {
      forall fp | fp in r ensures Group(t, lists, fp) != [] {
        var x :| x in Rows(t.patches) && HashOf(t.patches, x, lists) == Some(fp);
        assert x in Group(t, lists, fp);
      }
    }
    r
  }

  ghost function MergesOf(t: Tables, lists: Lists): seq<Merge> {
    Merges(t, lists, NewHashes(t, lists))
  }

  lemma {:induction false} PairOf(keep: PatchId, into: seq<PatchId>, p: (PatchId, PatchId))
    requires p in Pairs(keep, into)
    ensures p.0 == keep && p.1 in into
  {
    if into != [] && p in Pairs(keep, into[..|into| - 1]) {
      PairOf(keep, into[..|into| - 1], p);
    }
  }

  /** `p` folds a member of some group into that group's keeper. */
  ghost predicate MergePair(t: Tables, lists: Lists, p: (PatchId, PatchId)) {
    && Planned(t, lists, p.1)
    && p.0 == Keeper(t, lists, HashOf(t.patches, p.1, lists).value)
    && p.0 != p.1 && !Blocked(t.patches, p.0, p.1)
    && p.0 in t.patches
  }

  lemma InGroup(t: Tables, lists: Lists, fp: Fingerprint, id: PatchId)
    requires id in Group(t, lists, fp)
    ensures id in RowIds(t.patches) && HashOf(t.patches, id, lists) == Some(fp)
  {
    assert id in Rows(t.patches);
  }

  lemma KeeperStored(t: Tables, lists: Lists, fp: Fingerprint)
    requires Group(t, lists, fp) != []
    ensures Keeper(t, lists, fp) in t.patches
  {
    var keep := Keeper(t, lists, fp);
    if keep in Group(t, lists, fp) { InGroup(t, lists, fp, keep); }
  }

  lemma GroupPairs(t: Tables, lists: Lists, fp: Fingerprint, m: Merge, p: (PatchId, PatchId))
    requires Group(t, lists, fp) != [] && m == GroupMerge(t, lists, fp)
    requires p in Pairs(m.keep, m.into)
    ensures MergePair(t, lists, p)
  {
    PairOf(m.keep, m.into, p);
    InGroup(t, lists, fp, p.1);
    KeeperStored(t, lists, fp);
  }

  lemma AllPairsAppend(merged: seq<Merge>, m: Merge)
    ensures AllPairs(merged + [m]) == AllPairs(merged) + Pairs(m.keep, m.into)
  {
    assert (merged + [m])[..|merged|] == merged;
  }

  lemma {:induction false} MergePairsOf(t: Tables, lists: Lists, hashes: seq<Fingerprint>, p: (PatchId, PatchId))
    requires forall fp | fp in hashes :: Group(t, lists, fp) != []
    requires p in AllPairs(Merges(t, lists, hashes))
    ensures MergePair(t, lists, p)
    decreases |hashes|
  {
    if hashes != [] {
      var fp, before := hashes[|hashes| - 1], hashes[..|hashes| - 1];
      var m, merged := GroupMerge(t, lists, fp), Merges(t, lists, before);
      AllPairsAppend(merged, m);
      if p in AllPairs(merged) {
        MergePairsOf(t, lists, before, p);
      } else {
        GroupPairs(t, lists, fp, m, p);
      }
    }
  }

  ghost function MergeTables(t: Tables, lists: Lists): (r: Tables)
    ensures r.patches.Keys == t.patches.Keys
  {
    MergedPairs(t.(patches := Rehashed(t, lists)), AllPairs(MergesOf(t, lists)))
  }

  /** The tables after a refingerprint that throws nothing. */
  ghost function Refingerprinted(t: Tables, lists: Lists): Tables {
    var merged := MergeTables(t, lists);
    var folded := LeftoversFolded(merged, lists, Leftovers(merged.patches));
    folded.(patches := AllTriaged(folded.patches))
  }

  /** It throws, and so changes nothing, when two rows are to hold one fingerprint. */
  ghost function RefingerprintResult(t: Tables, lists: Lists): Tables {
    if DistinctFingerprints(Rehashed(t, lists)) then Refingerprinted(t, lists) else t
  }
}
