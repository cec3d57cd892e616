/**
 Folding (src/balanceFold.ts): a patch that is not a balance change counts as
 another patch, and every round counts for what its sighted patch resolves to.
 */
module BalanceFold {
  import opened Wrappers
  import opened PointerForest
  import opened BalanceTables

  datatype FoldError = IntoItself | WouldLoop

  // ---------- what each call does to the tables ----------

  ghost function RetaggedRound(ps: Patches, r: Round): Round {
    if r.sighted.Some? then r.(patch := Some(Effective(ps, r.sighted.value))) else r
  }

  ghost function Retagged(t: Tables): Tables {
    t.(rounds := map k | k in t.rounds :: RetaggedRound(t.patches, t.rounds[k]),
       contexts := map k | k in t.contexts ::
         if k in t.rounds && t.rounds[k].sighted.Some? then Some(Effective(t.patches, t.rounds[k].sighted.value))
         else t.contexts[k],
       generation := t.generation + 1)
  }

  function FoldedPatch(p: Patch, target: PatchId): Patch {
    p.(triage := Folded, foldedInto := Some(target),
       publishedBeforeFold := if p.publishedAt.Some? then p.publishedAt else p.publishedBeforeFold,
       publishedAt := None)
  }

  ghost predicate CanFold(ps: Patches, id: PatchId, into: PatchId) {
    id != into && !Passes(FoldPointers(ps), into, id)
  }

  /** foldInto on a patch that may be folded there, otherwise no change. */
  ghost function FoldedInto(t: Tables, id: PatchId, into: PatchId): (r: Tables)
    ensures r.patches.Keys == t.patches.Keys
  {
    if id in t.patches && CanFold(t.patches, id, into) then
      Retagged(t.(patches := t.patches[id := FoldedPatch(t.patches[id], Effective(t.patches, into))]))
    else t
  }

  /** Undone: pending, or balance and public again when it was published. */
  function UnfoldedPatch(p: Patch): Patch {
    p.(foldedInto := None, triage := if p.publishedBeforeFold.None? then Pending else Balance,
       publishedAt := p.publishedBeforeFold, publishedBeforeFold := None)
  }

  /** A patch that pointed at `id` points at `end` instead. */
  function Repointed(p: Patch, id: PatchId, end: PatchId): Patch {
    if p.triage == Folded && p.foldedInto == Some(id) then p.(foldedInto := Some(end)) else p
  }

  ghost function UnfoldedPatches(ps: Patches, id: PatchId): Patches {
    var end := Effective(ps, id);
    map x | x in ps :: if x == id then UnfoldedPatch(ps[x]) else if end != id then Repointed(ps[x], id, end) else ps[x]
  }

  ghost function Unfolded(t: Tables, id: PatchId): Tables {
    Retagged(t.(patches := UnfoldedPatches(t.patches, id)))
  }

  // ---------- what that means ----------

  /** A fold moves exactly the patches whose chain passes through the folded
      one, all of them to the end of the target's chain. */
  lemma FoldReroutes(t: Tables, id: PatchId, into: PatchId)
    requires Consistent(t) && id in t.patches && CanFold(t.patches, id, into)
    ensures
      var t' := FoldedInto(t, id, into);
      && Acyclic(FoldPointers(t'.patches))
      && (forall x :: Effective(t'.patches, x) ==
                      if Passes(FoldPointers(t.patches), x, id) then Effective(t.patches, into)
                      else Effective(t.patches, x))
      && Effective(t'.patches, id) == Effective(t'.patches, into) == Effective(t.patches, into)
  {
    var m := FoldPointers(t.patches);
    var target := Effective(t.patches, into);
    var t' := FoldedInto(t, id, into);
    EndsAt(m, into);
    var n: nat :| Hop(m, into, n) !in m && target == Hop(m, into, n);
    assert target != id;
    assert FoldPointers(t'.patches) == m[id := target];
    Link(m, id, target);
    PassesStep(m, id, id);
  }

  /** An unfold moves the unfolded patch alone, back to itself. */
  lemma UnfoldMovesOne(t: Tables, id: PatchId)
    requires Consistent(t) && id in t.patches
    ensures
      var t' := Unfolded(t, id);
      && Acyclic(FoldPointers(t'.patches))
      && forall x :: Effective(t'.patches, x) == if x == id then id else Effective(t.patches, x)
  {
    var m := FoldPointers(t.patches);
    var t' := Unfolded(t, id);
    if id !in m { RootOfEnd(m, id); }
    assert FoldPointers(t'.patches) == Unlinked(m, id);
    Unlink(m, id);
  }

  /** The metric context of a sighted round has the round's own tag. */
  ghost predicate ContextsDerived(t: Tables) {
    forall k | k in t.contexts && k in t.rounds && t.rounds[k].sighted.Some? :: t.contexts[k] == t.rounds[k].patch
  }

  /** After a retag every round and every metric context counts for what its
      sighted patch resolves to; no sighting, and nothing without one, has changed. */
  lemma RetagDerives(t: Tables)
    ensures TagsDerived(Retagged(t)) && ContextsDerived(Retagged(t))
    ensures Retagged(t).rounds.Keys == t.rounds.Keys && Retagged(t).contexts.Keys == t.contexts.Keys
    ensures forall k | k in t.rounds ::
      && Retagged(t).rounds[k].sighted == t.rounds[k].sighted
      && (t.rounds[k].sighted.None? ==> Retagged(t).rounds[k] == t.rounds[k])
    ensures forall k | k in t.contexts && !(k in t.rounds && t.rounds[k].sighted.Some?) ::
      Retagged(t).contexts[k] == t.contexts[k]
    ensures Retagged(t).patches == t.patches
  {
  }

  lemma FoldKeepsConsistent(t: Tables, id: PatchId, into: PatchId)
    requires Consistent(t) && id in t.patches && into in t.patches
    ensures Consistent(FoldedInto(t, id, into))
  {
    if CanFold(t.patches, id, into) {
      FoldReroutes(t, id, into);
      EffectiveStored(t, into);
      var u := t.(patches := t.patches[id := FoldedPatch(t.patches[id], Effective(t.patches, into))]);
      RetagDerives(u);
      assert forall x, fp :: Holds(u.patches, x, fp) <==> Holds(t.patches, x, fp);
    }
  }

  lemma UnfoldKeepsConsistent(t: Tables, id: PatchId)
    requires Consistent(t) && id in t.patches
    ensures Consistent(Unfolded(t, id))
  {
    UnfoldMovesOne(t, id);
    EffectiveStored(t, id);
    var u := t.(patches := UnfoldedPatches(t.patches, id));
    RetagDerives(u);
    assert forall x, fp :: Holds(u.patches, x, fp) <==> Holds(t.patches, x, fp);
  }

  /** Fold then unfold: every patch that was not folded into the patch resolves
      as before, and a published patch is public again at its old time. */
  lemma UnfoldUndoesFold(t: Tables, id: PatchId, into: PatchId)
    requires Consistent(t) && id in t.patches && into in t.patches && CanFold(t.patches, id, into)
    requires !IsFolded(t.patches[id])
    ensures
      var u := Unfolded(FoldedInto(t, id, into), id);
      && (forall x :: Effective(u.patches, x) ==
            if x != id && Passes(FoldPointers(t.patches), x, id) then Effective(t.patches, into)
            else Effective(t.patches, x))
      && u.patches[id].publishedAt == t.patches[id].publishedAt
      && (t.patches[id].publishedAt.Some? ==> u.patches[id].triage == Balance)
  {
    FoldReroutes(t, id, into);
    FoldKeepsConsistent(t, id, into);
    UnfoldMovesOne(FoldedInto(t, id, into), id);
    RootOfEnd(FoldPointers(t.patches), id);
  }

  // ---------- the calls ----------

  /** `c` starts at `id`, follows the fold column and ends at an unfolded patch. */
  ghost predicate IsChain(m: Pointers<PatchId>, id: PatchId, c: seq<PatchId>) {
    && c != [] && c[|c| - 1] !in m
    && (forall i | 0 <= i < |c| - 1 :: c[i] in m)
    && forall i | 0 <= i < |c| :: c[i] == Hop(m, id, i)
  }

  /** A chain lists exactly the patches the walk passes through, once each. */
  lemma ChainIsWalk(m: Pointers<PatchId>, id: PatchId, c: seq<PatchId>)
    requires IsChain(m, id, c)
    ensures Ends(m, id) && c[|c| - 1] == Root(m, id)
    ensures forall x :: x in c <==> Passes(m, id, x)
    ensures forall i, j | 0 <= i < j < |c| :: c[i] != c[j]
  {
    RootIs(m, id, |c| - 1);
    forall x ensures x in c <==> Passes(m, id, x) {
      if Passes(m, id, x) {
        var n: nat :| Hop(m, id, n) == x;
        if n >= |c| { HopAdd(m, id, |c| - 1, n - (|c| - 1)); }
        assert x == c[if n < |c| then n else |c| - 1];
      }
    }
    forall i, j | 0 <= i < j < |c| ensures c[i] != c[j] {
      HopAdd(m, id, i, j - i);
      HopAdd(m, id, i, |c| - 1 - i);
      if c[i] == c[j] {
        LoopNeverEnds(m, c[i], j - i, |c| - 1 - i);
      }
    }
  }

  /** Throws (returns Err with the looping chain) exactly when the walk from
      `id` never ends. */
  method ChainOf(db: Db, id: PatchId) returns (r: Result<seq<PatchId>, seq<PatchId>>)
    ensures r.Ok? <==> Ends(FoldPointers(db.patches), id)
    ensures r.Ok? ==> IsChain(FoldPointers(db.patches), id, r.value)
  {
    ghost var m := FoldPointers(db.patches);
    var chain := [id];
    ghost var seen: set<PatchId> := {};
    while true
      invariant chain != []
      invariant forall i | 0 <= i < |chain| :: chain[i] == Hop(m, id, i)
      invariant forall i | 0 <= i < |chain| - 1 :: chain[i] in m
      invariant forall x :: x in seen <==> x in chain[..|chain| - 1]
      invariant chain[|chain| - 1] !in seen
      decreases m.Keys - seen
    {
      var last := chain[|chain| - 1];
      if last !in db.patches || !IsFolded(db.patches[last]) {
        RootIs(m, id, |chain| - 1);
        return Ok(chain);
      }
      var next := db.patches[last].foldedInto.value;
      HopAdd(m, id, |chain| - 1, 1);
      if next in chain {
        var i :| 0 <= i < |chain| && chain[i] == next;
        RevisitNeverEnds(m, id, i, |chain|);
        return Err(chain + [next]);
      }
      assert last in m.Keys - seen;
      seen, chain := seen + {last}, chain + [next];
      assert chain[..|chain| - 1] == chain[..|chain| - 2] + [last];
    }
  }

  lemma RevisitNeverEnds(m: Pointers<PatchId>, id: PatchId, i: nat, j: nat)
    requires i < j && Hop(m, id, i) == Hop(m, id, j) && Hop(m, id, i) in m
    ensures !Ends(m, id)
  {
    HopAdd(m, id, i, j - i);
    forall n: nat ensures Hop(m, id, n) in m {
      if n >= i {
        HopAdd(m, id, i, n - i);
        LoopNeverEnds(m, Hop(m, id, i), j - i, n - i);
      } else {
        HopAdd(m, id, n, i - n);
      }
    }
  }

  method ResolvePatch(db: Db, id: PatchId) returns (end: PatchId)
    requires db.Valid()
    ensures end == Effective(db.patches, id)
  {
    EndsAt(FoldPointers(db.patches), id);
    var c := ChainOf(db, id);
    ChainIsWalk(FoldPointers(db.patches), id, c.value);
    end := c.value[|c.value| - 1];
  }

  /** Rounds that count for something else than their sighted patch does now. */
  ghost function Stale(t: Tables): set<RoundKey> {
    set k | k in t.rounds && t.rounds[k] != RetaggedRound(t.patches, t.rounds[k])
  }

  /** The part of `Stale` sighted on `done`. */
  ghost function StaleFor(t: Tables, done: set<PatchId>): set<RoundKey> {
    set k | k in Stale(t) && t.rounds[k].sighted.value in done
  }

  /** The tables once the rounds sighted on `done` are retagged. */
  ghost function RetaggedFor(t: Tables, done: set<PatchId>): Tables {
    t.(rounds := map k | k in t.rounds ::
         if t.rounds[k].sighted.Some? && t.rounds[k].sighted.value in done then RetaggedRound(t.patches, t.rounds[k])
         else t.rounds[k],
       contexts := map k | k in t.contexts ::
         if k in t.rounds && t.rounds[k].sighted.Some? && t.rounds[k].sighted.value in done
         then Some(Effective(t.patches, t.rounds[k].sighted.value))
         else t.contexts[k])
  }

  /** UPDATE match_rounds SET patch_id = eff WHERE sighted_patch_id = id. */
  function TagRounds(rounds: map<RoundKey, Round>, id: PatchId, eff: PatchId): map<RoundKey, Round> {
    map k | k in rounds :: if rounds[k].sighted == Some(id) then rounds[k].(patch := Some(eff)) else rounds[k]
  }

  /** The same for the metric contexts of those rounds. */
  function TagContexts(contexts: map<RoundKey, Option<PatchId>>, rounds: map<RoundKey, Round>, id: PatchId,
                       eff: PatchId)
    : map<RoundKey, Option<PatchId>>
  {
    map k | k in contexts :: if k in rounds && rounds[k].sighted == Some(id) then Some(eff) else contexts[k]
  }

  lemma RetagStep(t: Tables, done: set<PatchId>, id: PatchId)
    requires id !in done
    ensures
      var u, eff := RetaggedFor(t, done), Effective(t.patches, id);
      && RetaggedFor(t, done + {id}).rounds == TagRounds(u.rounds, id, eff)
      && RetaggedFor(t, done + {id}).contexts == TagContexts(u.contexts, u.rounds, id, eff)
  {
  }

  lemma StaleStep(t: Tables, done: set<PatchId>, id: PatchId, hit: set<RoundKey>)
    requires id !in done
    requires forall k :: k in hit <==>
      k in t.rounds && t.rounds[k].sighted == Some(id) && t.rounds[k].patch != Some(Effective(t.patches, id))
    ensures |StaleFor(t, done + {id})| == |StaleFor(t, done)| + |hit|
  {
    assert StaleFor(t, done + {id}) == StaleFor(t, done) + hit;
    assert StaleFor(t, done) !! hit;
  }

  /** The two UPDATEs for one sighted patch; returns how many rounds changed. */
  method RetagSighted(db: Db, id: PatchId, eff: PatchId, ghost t: Tables, ghost done: set<PatchId>)
    returns (changes: nat)
    requires db.Read() == RetaggedFor(t, done) && id !in done && eff == Effective(t.patches, id)
    modifies db
    ensures db.Read() == RetaggedFor(t, done + {id})
    ensures |StaleFor(t, done + {id})| == |StaleFor(t, done)| + changes
  {
    RetagStep(t, done, id);
    var hit := set k | k in db.rounds && db.rounds[k].sighted == Some(id) && db.rounds[k].patch != Some(eff);
    StaleStep(t, done, id, hit);
    changes := |hit|;
    db.contexts := TagContexts(db.contexts, db.rounds, id, eff);
    db.rounds := TagRounds(db.rounds, id, eff);
  }

  lemma RetagNone(t: Tables)
    ensures RetaggedFor(t, {}).rounds == t.rounds && RetaggedFor(t, {}).contexts == t.contexts && StaleFor(t, {}) == {}
  {
  }

  lemma RetagAll(t: Tables, done: set<PatchId>)
    requires forall k | k in t.rounds && t.rounds[k].sighted.Some? :: t.rounds[k].sighted.value in done
    ensures RetaggedFor(t, done).rounds == Retagged(t).rounds && RetaggedFor(t, done).contexts == Retagged(t).contexts
    ensures StaleFor(t, done) == Stale(t)
  {
  }

  /** Returns how many rounds moved. */
  method RetagRounds(db: Db) returns (moved: nat)
    requires Acyclic(FoldPointers(db.patches))
    modifies db
    ensures db.Read() == Retagged(old(db.Read()))
    ensures moved == |Stale(old(db.Read()))|
  {
    ghost var t := db.Read();
    var ids := set k | k in db.rounds && db.rounds[k].sighted.Some? :: db.rounds[k].sighted.value;
    ghost var done: set<PatchId> := {};
    moved := 0;
    RetagNone(t);
    while ids != {}
      invariant db.Read() == RetaggedFor(t, done)
      invariant ids !! done
      invariant forall k | k in t.rounds && t.rounds[k].sighted.Some? :: t.rounds[k].sighted.value in ids + done
      invariant moved == |StaleFor(t, done)|
      decreases ids
    {
      var id :| id in ids;
      EndsAt(FoldPointers(db.patches), id);
      var c := ChainOf(db, id);
      ChainIsWalk(FoldPointers(db.patches), id, c.value);
      var changes := RetagSighted(db, id, c.value[|c.value| - 1], t, done);
      moved := moved + changes;
      ids, done := ids - {id}, done + {id};
    }
    RetagAll(t, done);
    db.generation := db.generation + 1;
  }

  method FoldInto(db: Db, id: PatchId, into: PatchId) returns (r: Result<PatchId, FoldError>)
    requires db.Valid() && id in db.patches && into in db.patches
    modifies db
    ensures db.Valid() && db.Read() == FoldedInto(old(db.Read()), id, into)
    ensures r == if id == into then Err(IntoItself)
                 else if Passes(FoldPointers(old(db.patches)), into, id) then Err(WouldLoop)
                 else Ok(Effective(old(db.patches), into))
  {
    if id == into { return Err(IntoItself); }
    ghost var m := FoldPointers(db.patches);
    FoldKeepsConsistent(db.Read(), id, into);
    EndsAt(m, into);
    var c := ChainOf(db, into);
    ChainIsWalk(m, into, c.value);
    if id in c.value { return Err(WouldLoop); }
    var target := c.value[|c.value| - 1];
    FoldReroutes(db.Read(), id, into);
    db.patches := db.patches[id := FoldedPatch(db.patches[id], target)];
    var _ := RetagRounds(db);
    return Ok(target);
  }

  method UnfoldPatch(db: Db, id: PatchId)
    requires db.Valid() && id in db.patches
    modifies db
    ensures db.Valid() && db.Read() == Unfolded(old(db.Read()), id)
  {
    hide UnfoldedPatches, Consistent, Acyclic;
    ghost var t := db.Read();
    UnfoldKeepsConsistent(t, id);
    UnfoldLeavesAcyclic(t, id);
    var end := ResolvePatch(db, id);
    if end != id {
      db.patches := map x | x in db.patches :: Repointed(db.patches[x], id, end);
    }
    db.patches := db.patches[id := UnfoldedPatch(db.patches[id])];
    UnfoldedAre(t.patches, id, db.patches);
    var _ := RetagRounds(db);
  }

  lemma UnfoldLeavesAcyclic(t: Tables, id: PatchId)
    requires Consistent(t) && id in t.patches
    ensures Acyclic(FoldPointers(t.patches)) && Acyclic(FoldPointers(UnfoldedPatches(t.patches, id)))
    ensures Repointed(t.patches[id], id, Effective(t.patches, id)) == t.patches[id]
  {
    UnfoldMovesOne(t, id);
    NoSelfFold(t.patches, id);
  }

  /** The two updates one after the other. */
  lemma UnfoldedAre(ps: Patches, id: PatchId, after: Patches)
    requires id in ps && Repointed(ps[id], id, Effective(ps, id)) == ps[id] && after.Keys == ps.Keys
    requires after[id] == UnfoldedPatch(ps[id])
    requires forall x | x in ps && x != id ::
      after[x] == if Effective(ps, id) == id then ps[x] else Repointed(ps[x], id, Effective(ps, id))
    ensures after == UnfoldedPatches(ps, id)
  {
  }

  lemma NoSelfFold(ps: Patches, id: PatchId)
    requires Acyclic(FoldPointers(ps)) && id in ps
    ensures !(ps[id].triage == Folded && ps[id].foldedInto == Some(id))
  {
    var m := FoldPointers(ps);
    EndsAt(m, id);
    if id in m && m[id] == id {
      var n: nat :| Hop(m, id, n) !in m;
      assert Hop(m, id, 1) == id;
      LoopNeverEnds(m, id, 1, n);
    }
  }
}
