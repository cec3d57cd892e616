/** Merging duplicate patches by folding them into one (src/balanceMerge.ts). */
module BalanceMerge {
  import opened Wrappers
  import opened Seqs
  import opened PointerForest
  import opened BalanceTables
  import opened BalanceFold

  datatype MergeError = NothingToDrop | KeptIsDropped | Missing | KeptIsFolded | MatchesLive | ActiveRollout
  datatype Merged = Merged(applied: bool, target: PatchId, roundsMoved: nat)

  /** One dropped patch: skipped when it already counts for the kept one. */
  ghost function Dropped(t: Tables, keep: PatchId, id: PatchId): Tables {
    if Effective(t.patches, id) == keep then t else FoldedInto(t, id, keep)
  }

  ghost function AllDropped(t: Tables, keep: PatchId, drop: seq<PatchId>): Tables {
    if drop == [] then t else Dropped(AllDropped(t, keep, drop[..|drop| - 1]), keep, drop[|drop| - 1])
  }

  ghost predicate Mergeable(t: Tables, keep: PatchId, drop: seq<PatchId>) {
    && keep in t.patches && keep !in drop && (forall id | id in drop :: id in t.patches)
    && keep !in FoldPointers(t.patches)
  }

  lemma DropOne(t: Tables, keep: PatchId, id: PatchId)
    requires Consistent(t) && keep in t.patches && id in t.patches && id != keep && keep !in FoldPointers(t.patches)
    ensures
      var u := Dropped(t, keep, id);
      && Consistent(u) && u.patches.Keys == t.patches.Keys && keep !in FoldPointers(u.patches)
      && Effective(u.patches, id) == keep
      && (u == t || CanFold(t.patches, id, keep))
      && forall x :: Effective(u.patches, x) == keep || Effective(u.patches, x) == Effective(t.patches, x)
    ensures forall x :: Effective(t.patches, x) == keep ==> Effective(Dropped(t, keep, id).patches, x) == keep
  {
    RootOfEnd(FoldPointers(t.patches), keep);
    PassesStep(FoldPointers(t.patches), keep, id);
    if Effective(t.patches, id) != keep {
      FoldKeepsConsistent(t, id, keep);
      FoldReroutes(t, id, keep);
    }
  }

  /** Every dropped patch counts for the kept one; a patch either moves there or
      stays where it was. */
  lemma {:induction false} DropsCountForKept(t: Tables, keep: PatchId, drop: seq<PatchId>)
    requires Consistent(t) && Mergeable(t, keep, drop)
    ensures
      var u := AllDropped(t, keep, drop);
      && Consistent(u) && u.patches.Keys == t.patches.Keys && keep !in FoldPointers(u.patches)
      && (forall id | id in drop :: Effective(u.patches, id) == keep)
      && forall x :: Effective(u.patches, x) == keep || Effective(u.patches, x) == Effective(t.patches, x)
    decreases |drop|
  {
    if drop != [] {
      var before, last := drop[..|drop| - 1], drop[|drop| - 1];
      assert drop == before + [last];
      DropsCountForKept(t, keep, before);
      DropOne(AllDropped(t, keep, before), keep, last);
    }
  }

  /** The rounds whose effective patch a merge changes. */
  ghost function MovedRounds(t: Tables, u: Tables): set<RoundKey> {
    set k | k in u.rounds && (k !in t.rounds || t.rounds[k].patch != u.rounds[k].patch)
  }

  ghost function MergeCheck(t: Tables, keep: PatchId, drop: seq<PatchId>, apply: bool,
                            live: nat): Result<(), MergeError> {
    if drop == [] then Err(NothingToDrop)
    else if keep in drop then Err(KeptIsDropped)
    else if keep !in t.patches || exists id | id in drop :: id !in t.patches then Err(Missing)
    else if Effective(t.patches, keep) != keep then Err(KeptIsFolded)
    else if apply && live > 0 then Err(MatchesLive)
    else if t.rollout.Some? && t.rollout.value in drop then Err(ActiveRollout)
    else Ok(())
  }

  ghost function MergeResult(t: Tables, keep: PatchId, drop: seq<PatchId>, apply: bool, live: nat): Tables {
    if MergeCheck(t, keep, drop, apply, live).Ok? && apply then AllDropped(t, keep, drop) else t
  }

  lemma MergeableAfterCheck(t: Tables, keep: PatchId, drop: seq<PatchId>, apply: bool, live: nat)
    requires Consistent(t) && MergeCheck(t, keep, drop, apply, live).Ok?
    ensures Mergeable(t, keep, drop)
  {
    EndsAt(FoldPointers(t.patches), keep);
    RootNotKey(FoldPointers(t.patches), keep);
  }

  /** Past its checks a merge cannot fail, and a dry run reports what the real
      run would: the kept patch as target and the rounds that would move. */
  method MergeBalancePatches(db: Db, keep: PatchId, drop: seq<PatchId>, apply: bool, live: nat)
    returns (r: Result<Merged, MergeError>)
    requires db.Valid()
    modifies db
    ensures db.Valid() && db.Read() == MergeResult(old(db.Read()), keep, drop, apply, live)
    ensures r == match MergeCheck(old(db.Read()), keep, drop, apply, live)
                 case Err(e) => Err(e)
                 case Ok(_) =>
                   Ok(Merged(apply, keep, |MovedRounds(old(db.Read()), AllDropped(old(db.Read()), keep, drop))|))
  {
    ghost var t := db.Read();
    if drop == [] { return Err(NothingToDrop); }
    if keep in drop { return Err(KeptIsDropped); }
    if keep !in db.patches || exists id | id in drop :: id !in db.patches { return Err(Missing); }
    var end := ResolvePatch(db, keep);
    if end != keep { return Err(KeptIsFolded); }
    if apply && live > 0 { return Err(MatchesLive); }
    if db.rollout.Some? && db.rollout.value in drop { return Err(ActiveRollout); }
    MergeableAfterCheck(t, keep, drop, apply, live);
    var patches, rounds, contexts, generation := db.patches, db.rounds, db.contexts, db.generation;
    var target := FoldDrops(db, keep, drop);
    var moved := set k | k in db.rounds && (k !in rounds || rounds[k].patch != db.rounds[k].patch);
    assert moved == MovedRounds(t, AllDropped(t, keep, drop));
    if !apply {
      db.patches, db.rounds, db.contexts, db.generation := patches, rounds, contexts, generation;
    }
    return Ok(Merged(apply, target, |moved|));
  }

  lemma {:induction false} DropsTouch(t: Tables, keep: PatchId, drop: seq<PatchId>)
    ensures
      var u := AllDropped(t, keep, drop);
      u.boxes == t.boxes && u.ignored == t.ignored && u.rollout == t.rollout
    decreases |drop|
  {
    if drop != [] { DropsTouch(t, keep, drop[..|drop| - 1]); }
  }

  method FoldDrops(db: Db, keep: PatchId, drop: seq<PatchId>) returns (target: PatchId)
    requires db.Valid() && Mergeable(db.Read(), keep, drop)
    modifies db
    ensures db.Valid() && db.Read() == AllDropped(old(db.Read()), keep, drop)
    ensures db.boxes == old(db.boxes) && db.ignored == old(db.ignored) && db.rollout == old(db.rollout)
    ensures target == keep
  {
    ghost var t := db.Read();
    target := keep;
    for i := 0 to |drop|
      invariant db.Valid() && db.Read() == AllDropped(t, keep, drop[..i]) && target == keep
    {
      assert drop[..i + 1][..i] == drop[..i] && drop[i] in drop;
      DropsCountForKept(t, keep, drop[..i]);
      DropOne(db.Read(), keep, drop[i]);
      var end := ResolvePatch(db, drop[i]);
      if end != target {
        RootOfEnd(FoldPointers(db.patches), keep);
        var f := FoldInto(db, drop[i], keep);
        target := f.value;
      }
    }
    assert drop[..|drop|] == drop;
    DropsTouch(t, keep, drop);
  }
}
