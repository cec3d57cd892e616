/**
 The refingerprint call (refingerprintPatches in src/balancePatches.ts), step
 by step: group the rows, plan each group, rewrite the fingerprints under the
 UNIQUE constraint, fold what merged, fold the leftovers.
 */
module Refingerprint {
  import opened Wrappers
  import opened Sets
  import opened Seqs
  import opened Inventories
  import opened PointerForest
  import opened BalanceTables
  import opened BalanceFold
  import opened BalancePatches
  import opened RefingerprintLaws

  datatype Report = Report(updated: nat, merged: seq<Merge>)

  /** What the database throws when a write would give two rows one fingerprint. */
  datatype UniqueViolation = UniqueViolation

  method FindHolder(db: Db, fp: Fingerprint) returns (r: Option<PatchId>)
    requires DistinctFingerprints(db.patches)
    ensures r == Holder(db.patches, fp)
  {
    if id :| id in db.patches && db.patches[id].fingerprint == Some(fp) {
      HolderIs(db.patches, id, fp);
      return Some(id);
    }
    assert forall id :: !Holds(db.patches, id, fp);
    return None;
  }

  method GroupRows(ps: Patches, rows: seq<PatchId>, lists: Lists)
    returns (keys: seq<Fingerprint>, groups: map<Fingerprint, seq<PatchId>>)
    ensures keys == Hashes(ps, rows, lists)
    ensures forall fp :: fp in groups <==> fp in keys
    ensures forall fp | fp in groups :: groups[fp] == Members(ps, rows, lists, fp)
  {
    keys, groups := [], map[];
    for i := 0 to |rows|
      invariant GroupedBy(ps, rows[..i], lists, keys, groups)
    {
      keys, groups := GroupRow(ps, rows, i, lists, keys, groups);
    }
    assert rows[..|rows|] == rows;
  }

  /** The hashes met, in order, and the rows of each. */
  ghost predicate GroupedBy(ps: Patches, rows: seq<PatchId>, lists: Lists, keys: seq<Fingerprint>,
                            groups: map<Fingerprint, seq<PatchId>>) {
    && keys == Hashes(ps, rows, lists)
    && (forall fp :: fp in groups <==> fp in keys)
    && forall fp | fp in groups :: groups[fp] == Members(ps, rows, lists, fp)
  }

  method GroupRow(ps: Patches, rows: seq<PatchId>, i: nat, lists: Lists, keys: seq<Fingerprint>,
                  groups: map<Fingerprint, seq<PatchId>>)
    returns (keys': seq<Fingerprint>, groups': map<Fingerprint, seq<PatchId>>)
    requires i < |rows| && GroupedBy(ps, rows[..i], lists, keys, groups)
    ensures GroupedBy(ps, rows[..i + 1], lists, keys', groups')
  {
    keys', groups' := keys, groups;
    var hash := HashOf(ps, rows[i], lists);
    if hash.Some? {
      var fp := hash.value;
      if fp in groups {
        groups' := groups[fp := groups[fp] + [rows[i]]];
      } else {
        keys', groups' := keys + [fp], groups[fp := [rows[i]]];
      }
    }
    GroupRowKeeps(ps, rows, i, lists, keys, groups, keys', groups');
  }

  lemma GroupRowKeeps(ps: Patches, rows: seq<PatchId>, i: nat, lists: Lists,
                      keys: seq<Fingerprint>, groups: map<Fingerprint, seq<PatchId>>,
                      keys': seq<Fingerprint>, groups': map<Fingerprint, seq<PatchId>>)
    requires i < |rows| && GroupedBy(ps, rows[..i], lists, keys, groups)
    requires IsGrouped(keys, groups, HashOf(ps, rows[i], lists), rows[i], keys', groups')
    ensures GroupedBy(ps, rows[..i + 1], lists, keys', groups')
  {
    HashesOneMore(ps, rows, i, lists);
    forall fp
      ensures fp in groups' <==> fp in keys'
      ensures fp in groups' ==> groups'[fp] == Members(ps, rows[..i + 1], lists, fp)
    {
      hide *;
      GroupRowAt(ps, rows, i, lists, keys, groups, keys', groups', fp);
    }
  }

  /** Row `id` with this hash joins its group, or starts it. */
  predicate IsGrouped(keys: seq<Fingerprint>, groups: map<Fingerprint, seq<PatchId>>, hash: Option<Fingerprint>,
                      id: PatchId,
                      keys': seq<Fingerprint>, groups': map<Fingerprint, seq<PatchId>>)
  {
    match hash
    case None => keys' == keys && groups' == groups
    case Some(fp) =>
      if fp in groups then keys' == keys && groups' == groups[fp := groups[fp] + [id]]
      else keys' == keys + [fp] && groups' == groups[fp := [id]]
  }

  lemma GroupRowAt(ps: Patches, rows: seq<PatchId>, i: nat, lists: Lists,
                   keys: seq<Fingerprint>, groups: map<Fingerprint, seq<PatchId>>,
                   keys': seq<Fingerprint>, groups': map<Fingerprint, seq<PatchId>>, fp: Fingerprint)
    requires i < |rows| && GroupedBy(ps, rows[..i], lists, keys, groups)
    requires IsGrouped(keys, groups, HashOf(ps, rows[i], lists), rows[i], keys', groups')
    ensures fp in groups' <==> fp in keys'
    ensures fp in groups' ==> groups'[fp] == Members(ps, rows[..i + 1], lists, fp)
  {
    hide *;
    MembersOneMore(ps, rows, i, lists, fp);
    GroupedAt(ps, rows[..i], lists, keys, groups, fp);
    JoinsItsGroup(keys, groups, HashOf(ps, rows[i], lists), rows[i], keys', groups', fp,
                  Members(ps, rows[..i], lists, fp));
  }

  lemma GroupedAt(ps: Patches, rows: seq<PatchId>, lists: Lists, keys: seq<Fingerprint>, groups: map<Fingerprint,
                  seq<PatchId>>, fp: Fingerprint)
    requires GroupedBy(ps, rows, lists, keys, groups)
    ensures fp in groups <==> fp in keys
    ensures if fp in groups then groups[fp] == Members(ps, rows, lists, fp) else Members(ps, rows, lists, fp) == []
  {
    MembersHaveHash(ps, rows, lists, fp);
  }

  lemma JoinsItsGroup(keys: seq<Fingerprint>, groups: map<Fingerprint, seq<PatchId>>, hash: Option<Fingerprint>,
                      id: PatchId,
                      keys': seq<Fingerprint>, groups': map<Fingerprint, seq<PatchId>>, fp: Fingerprint,
                        members: seq<PatchId>)
    requires IsGrouped(keys, groups, hash, id, keys', groups') && (fp in groups <==> fp in keys)
    requires if fp in groups then groups[fp] == members else members == []
    ensures fp in groups' <==> fp in keys'
    ensures fp in groups' ==> groups'[fp] == members + if hash == Some(fp) then [id] else []
  {
  }

  lemma MembersOneMore(ps: Patches, rows: seq<PatchId>, i: nat, lists: Lists, fp: Fingerprint)
    requires i < |rows|
    ensures Members(ps, rows[..i + 1], lists, fp) ==
      Members(ps, rows[..i], lists, fp) + if HashOf(ps, rows[i], lists) == Some(fp) then [rows[i]] else []
  {
    assert rows[..i + 1][..i] == rows[..i];
  }

  lemma HashesOneMore(ps: Patches, rows: seq<PatchId>, i: nat, lists: Lists)
    requires i < |rows|
    ensures
      var hash, before := HashOf(ps, rows[i], lists), Hashes(ps, rows[..i], lists);
      Hashes(ps, rows[..i + 1], lists) == if hash.Some? && hash.value !in before then before + [hash.value] else before
  {
    assert rows[..i + 1][..i] == rows[..i];
  }

  lemma MembersHaveHash(ps: Patches, rows: seq<PatchId>, lists: Lists, fp: Fingerprint)
    ensures Members(ps, rows, lists, fp) != [] ==> fp in Hashes(ps, rows, lists)
  {
    var ids := Members(ps, rows, lists, fp);
    if ids != [] {
      assert ids[0] in ids;
    }
  }

  /** ids.filter(id !== keep && the keeper's chain runs through id and beyond). */
  method BlockedMembers(db: Db, keep: PatchId, ids: seq<PatchId>) returns (blocked: set<PatchId>)
    requires db.Valid()
    ensures forall x :: x in blocked <==> x in ids && Blocked(db.patches, keep, x)
  {
    var m: Pointers<PatchId> := FoldPointers(db.patches);
    EndsAt(m, keep);
    var c := ChainOf(db, keep);
    ChainIsWalk(m, keep, c.value);
    var chain := c.value;
    blocked := set x | x in ids && x != keep && x in chain && chain[|chain| - 1] != x;
  }

  /** The fingerprints the rows of the groups `keys` are to have. */
  ghost predicate PlansFor(t: Tables, lists: Lists, keys: seq<Fingerprint>, want: map<PatchId, Option<Fingerprint>>) {
    && (forall id :: id in want <==> Planned(t, lists, id) && HashOf(t.patches, id, lists).value in keys)
    && forall id | id in want && Planned(t, lists, id) :: want[id] == Want(t, lists, id)
  }

  method OtherMembers(ghost ps: Patches, keep: PatchId, blocked: set<PatchId>, ids: seq<PatchId>)
    returns (others: seq<PatchId>)
    requires forall x :: x in blocked <==> x in ids && Blocked(ps, keep, x)
    ensures others == Others(ps, keep, ids)
  {
    others := [];
    for i := 0 to |ids|
      invariant others == Others(ps, keep, ids[..i])
    {
      assert ids[..i + 1][..i] == ids[..i];
      if ids[i] != keep && ids[i] !in blocked { others := others + [ids[i]]; }
    }
    assert ids[..|ids|] == ids;
  }

  function PlannedRow(ps: Patches, keep: PatchId, takes: bool, blocked: set<PatchId>, fp: Fingerprint, id: PatchId)
    : Option<Fingerprint>
    requires id in ps
  {
    if id in blocked then ps[id].fingerprint
    else if id == keep then if takes then Some(fp) else ps[id].fingerprint
    else None
  }

  lemma GroupIsPlanned(t: Tables, lists: Lists, fp: Fingerprint, id: PatchId)
    ensures id in Group(t, lists, fp) <==> Planned(t, lists, id) && HashOf(t.patches, id, lists).value == fp
  {
    if id in Group(t, lists, fp) { InGroup(t, lists, fp, id); }
    assert id in RowIds(t.patches) <==> id in Rows(t.patches);
  }

  lemma TakesIs(t: Tables, lists: Lists, fp: Fingerprint, blocked: set<PatchId>)
    requires forall x :: x in blocked <==> x in Group(t, lists, fp) && Blocked(t.patches, Keeper(t, lists, fp), x)
    ensures (forall x | x in blocked :: x in t.patches && t.patches[x].fingerprint != Some(fp)) ==
      KeeperTakes(t, lists, fp)
  {
    forall x | x in Group(t, lists, fp) ensures x in t.patches { InGroup(t, lists, fp, x); }
  }

  lemma PlanIsWant(t: Tables, lists: Lists, fp: Fingerprint, takes: bool, blocked: set<PatchId>,
                   plan: map<PatchId, Option<Fingerprint>>)
    requires forall x :: x in blocked <==> x in Group(t, lists, fp) && Blocked(t.patches, Keeper(t, lists, fp), x)
    requires takes == KeeperTakes(t, lists, fp)
    requires plan == map x | x in Group(t, lists, fp) && x in t.patches ::
      PlannedRow(t.patches, Keeper(t, lists, fp), takes, blocked, fp, x)
    ensures PlansFor(t, lists, [fp], plan)
  {
    forall id
      ensures id in plan <==> Planned(t, lists, id) && HashOf(t.patches, id, lists).value in [fp]
      ensures id in plan && Planned(t, lists, id) ==> plan[id] == Want(t, lists, id)
    {
      GroupIsPlanned(t, lists, fp, id);
    }
  }

  method PlanGroup(db: Db, lists: Lists, fp: Fingerprint, ids: seq<PatchId>)
    returns (plan: map<PatchId, Option<Fingerprint>>, m: Merge)
    requires db.Valid() && ids == Group(db.Read(), lists, fp) && ids != []
    ensures m == GroupMerge(db.Read(), lists, fp)
    ensures PlansFor(db.Read(), lists, [fp], plan)
  {
    ghost var t := db.Read();
    var ps := db.patches;
    var holder := FindHolder(db, fp);
    var keep := ChooseKeeper(ps, db.rollout, holder, ids);
    var blocked := BlockedMembers(db, keep, ids);
    TakesIs(t, lists, fp, blocked);
    var takes := forall x | x in blocked :: x in ps && ps[x].fingerprint != Some(fp);
    plan := map x | x in ids && x in ps :: PlannedRow(ps, keep, takes, blocked, fp, x);
    PlanIsWant(t, lists, fp, takes, blocked, plan);
    var others := OtherMembers(ps, keep, blocked, ids);
    m := Merge(keep, others);
  }

  lemma PlansAdd(t: Tables, lists: Lists, keys: seq<Fingerprint>, fp: Fingerprint,
                 want: map<PatchId, Option<Fingerprint>>, plan: map<PatchId, Option<Fingerprint>>)
    requires PlansFor(t, lists, keys, want) && PlansFor(t, lists, [fp], plan)
    ensures PlansFor(t, lists, keys + [fp], want + plan)
  {
  }

  method PlanGroups(db: Db, lists: Lists) returns (want: map<PatchId, Option<Fingerprint>>, merged: seq<Merge>)
    requires db.Valid()
    ensures merged == MergesOf(db.Read(), lists)
    ensures PlansFor(db.Read(), lists, NewHashes(db.Read(), lists), want)
  {
    ghost var t := db.Read();
    var keys, groups := GroupRows(db.patches, Rows(db.patches), lists);
    ghost var hashes := NewHashes(t, lists);
    assert keys == hashes;
    want, merged := map[], [];
    for i := 0 to |keys|
      invariant merged == Merges(t, lists, keys[..i])
      invariant PlansFor(t, lists, keys[..i], want)
    {
      TakeOneMore(keys, i);
      var plan, m := PlanGroup(db, lists, keys[i], groups[keys[i]]);
      PlansAdd(t, lists, keys[..i], keys[i], want, plan);
      want := want + plan;
      MergesAppend(t, lists, keys[..i], keys[i]);
      if m.into != [] { merged := merged + [m]; }
    }
    assert keys[..|keys|] == keys;
  }

  lemma MergesAppend(t: Tables, lists: Lists, keys: seq<Fingerprint>, fp: Fingerprint)
    ensures
      var before, m := Merges(t, lists, keys), GroupMerge(t, lists, fp);
      Merges(t, lists, keys + [fp]) == if m.into == [] then before else before + [m]
  {
    assert (keys + [fp])[..|keys|] == keys;
  }

  lemma SetKeepsDistinct(ps: Patches, id: PatchId, fp: Option<Fingerprint>)
    requires DistinctFingerprints(ps) && id in ps
    requires fp.Some? ==> forall x | x != id :: !Holds(ps, x, fp.value)
    ensures DistinctFingerprints(ps[id := ps[id].(fingerprint := fp)])
  {
    var qs := ps[id := ps[id].(fingerprint := fp)];
    forall x, y, f | Holds(qs, x, f) && Holds(qs, y, f) ensures x == y {
      assert x == id || Holds(ps, x, f);
      assert y == id || Holds(ps, y, f);
    }
  }

  /** UPDATE balance_patches SET fingerprint = fp WHERE id = ?, under UNIQUE. */
  method SetFingerprint(db: Db, id: PatchId, fp: Option<Fingerprint>) returns (r: Result<(), UniqueViolation>)
    requires DistinctFingerprints(db.patches) && id in db.patches
    modifies db`patches
    ensures DistinctFingerprints(db.patches)
    ensures r.Err? <==> fp.Some? && exists x :: x != id && Holds(old(db.patches), x, fp.value)
    ensures db.patches ==
      if r.Err? then old(db.patches) else old(db.patches)[id := old(db.patches)[id].(fingerprint := fp)]
  {
    if fp.Some? {
      if x :| x in db.patches && x != id && db.patches[x].fingerprint == fp {
        assert Holds(db.patches, x, fp.value);
        return Err(UniqueViolation);
      }
    }
    SetKeepsDistinct(db.patches, id, fp);
    db.patches := db.patches[id := db.patches[id].(fingerprint := fp)];
    return Ok(());
  }

  ghost function WithFingerprints(ps: Patches, want: map<PatchId, Option<Fingerprint>>): Patches {
    map id | id in ps :: if id in want then ps[id].(fingerprint := want[id]) else ps[id]
  }

  /** `ps` with the rows in `given` given theirs and the other `cleared` rows emptied. */
  ghost function HalfWritten(ps: Patches, want: map<PatchId, Option<Fingerprint>>, cleared: set<PatchId>,
                             given: set<PatchId>)
    : Patches
  {
    map id | id in ps ::
      if id in given && id in want then ps[id].(fingerprint := want[id])
      else if id in cleared then ps[id].(fingerprint := None)
      else ps[id]
  }

  lemma ClearStep(ps: Patches, want: map<PatchId, Option<Fingerprint>>, cleared: set<PatchId>, id: PatchId)
    requires id in ps
    ensures
      var h := HalfWritten(ps, want, cleared, {});
      HalfWritten(ps, want, cleared + {id}, {}) == h[id := h[id].(fingerprint := None)]
  {
  }

  lemma SetStep(ps: Patches, want: map<PatchId, Option<Fingerprint>>, cleared: set<PatchId>, given: set<PatchId>,
                id: PatchId)
    requires id in ps && id in want
    ensures
      var h := HalfWritten(ps, want, cleared, given);
      HalfWritten(ps, want, cleared, given + {id}) == h[id := h[id].(fingerprint := want[id])]
  {
  }

  /** The first loop: every fingerprint that changes is cleared. */
  method ClearFingerprints(db: Db, want: map<PatchId, Option<Fingerprint>>, changed: set<PatchId>)
    requires DistinctFingerprints(db.patches) && changed <= db.patches.Keys
    modifies db`patches
    ensures DistinctFingerprints(db.patches)
    ensures db.patches == HalfWritten(old(db.patches), want, changed, {})
  {
    ghost var ps := db.patches;
    var todo := changed;
    ghost var cleared: set<PatchId> := {};
    assert HalfWritten(ps, want, {}, {}) == ps;
    while todo != {}
      invariant todo !! cleared && todo + cleared == changed
      invariant db.patches == HalfWritten(ps, want, cleared, {})
      invariant DistinctFingerprints(db.patches)
      decreases todo
    {
      var id := Pick(todo);
      ClearStep(ps, want, cleared, id);
      var w := SetFingerprint(db, id, None);
      todo, cleared := todo - {id}, cleared + {id};
    }
    assert cleared == changed;
  }

  /** The second loop: the new fingerprints are set, until one violates UNIQUE. */
  method GiveFingerprints(db: Db, ghost ps: Patches, want: map<PatchId, Option<Fingerprint>>,
                          ghost changed: set<PatchId>, due: set<PatchId>)
    returns (r: Result<(), UniqueViolation>)
    requires DistinctFingerprints(db.patches) && db.patches == HalfWritten(ps, want, changed, {})
    requires changed == set x | x in want && x in ps && want[x] != ps[x].fingerprint
    requires due == set x | x in changed && want[x].Some?
    modifies db`patches
    ensures r.Ok? <==> DistinctFingerprints(WithFingerprints(ps, want))
    ensures r.Ok? ==> db.patches == WithFingerprints(ps, want)
  {
    var todo := due;
    ghost var given: set<PatchId> := {};
    while todo != {}
      invariant todo !! given && todo + given == due
      invariant db.patches == HalfWritten(ps, want, changed, given)
      invariant DistinctFingerprints(db.patches)
      decreases todo
    {
      var id := Pick(todo);
      SetStep(ps, want, changed, given, id);
      var w := SetFingerprint(db, id, want[id]);
      if w.Err? {
        ClashIsFinal(ps, want, changed, given, id);
        return Err(UniqueViolation);
      }
      todo, given := todo - {id}, given + {id};
    }
    AllGiven(ps, want, changed, due);
    return Ok(());
  }

  lemma AllGiven(ps: Patches, want: map<PatchId, Option<Fingerprint>>, changed: set<PatchId>, due: set<PatchId>)
    requires changed == set x | x in want && x in ps && want[x] != ps[x].fingerprint
    requires due == set x | x in changed && want[x].Some?
    ensures HalfWritten(ps, want, changed, due) == WithFingerprints(ps, want)
  {
  }

  /** Clear first, then set: no single write leaves two rows with one
      fingerprint. On a violation the transaction takes everything back. */
  method WriteFingerprints(db: Db, want: map<PatchId, Option<Fingerprint>>) returns (r: Result<nat, UniqueViolation>)
    requires DistinctFingerprints(db.patches) && want.Keys <= db.patches.Keys
    modifies db`patches
    ensures r.Ok? <==> DistinctFingerprints(WithFingerprints(old(db.patches), want))
    ensures db.patches == if r.Ok? then WithFingerprints(old(db.patches), want) else old(db.patches)
    ensures r.Ok? ==>
      r.value ==
        |set x | x in want && x in old(db.patches) && want[x] != old(db.patches)[x].fingerprint && want[x].Some?|
  {
    var saved := db.patches;
    var changed := set x | x in want && x in saved && want[x] != saved[x].fingerprint;
    var due := set x | x in changed && want[x].Some?;
    ClearFingerprints(db, want, changed);
    var w := GiveFingerprints(db, saved, want, changed, due);
    if w.Err? {
      db.patches := saved;
      return Err(UniqueViolation);
    }
    assert due == set x | x in want && x in saved && want[x] != saved[x].fingerprint && want[x].Some?;
    return Ok(|due|);
  }

  lemma ClashIsFinal(ps: Patches, want: map<PatchId, Option<Fingerprint>>, changed: set<PatchId>, done: set<PatchId>,
                     id: PatchId)
    requires changed == set x | x in want && x in ps && want[x] != ps[x].fingerprint
    requires id in want && id in ps && want[id].Some? && id !in done
    requires exists x :: x != id && Holds(HalfWritten(ps, want, changed, done), x, want[id].value)
    ensures !DistinctFingerprints(WithFingerprints(ps, want))
  {
    var x :| x != id && Holds(HalfWritten(ps, want, changed, done), x, want[id].value);
    assert Holds(WithFingerprints(ps, want), x, want[id].value);
    assert Holds(WithFingerprints(ps, want), id, want[id].value);
  }

  lemma MergedPairsAppend(t: Tables, pairs: seq<(PatchId, PatchId)>, p: (PatchId, PatchId))
    ensures MergedPairs(t, pairs + [p]) == MergedPair(MergedPairs(t, pairs), p)
  {
    assert (pairs + [p])[..|pairs|] == pairs;
  }

  /** A merge is a fold, unless the keeper is folded into the patch already. */
  method FoldPair(db: Db, keep: PatchId, id: PatchId)
    requires db.Valid() && keep in db.patches && id in db.patches
    modifies db
    ensures db.Valid() && db.Read() == MergedPair(old(db.Read()), (keep, id))
  {
    var eff := ResolvePatch(db, keep);
    if eff != id {
      var _ := FoldInto(db, id, keep);
    }
  }

  method FoldMerge(db: Db, m: Merge, ghost t: Tables, ghost pairs: seq<(PatchId, PatchId)>)
    requires db.Valid() && db.Read() == MergedPairs(t, pairs)
    requires m.into != [] ==> m.keep in t.patches
    requires forall x | x in m.into :: x in t.patches
    modifies db
    ensures db.Valid() && db.Read() == MergedPairs(t, pairs + Pairs(m.keep, m.into))
  {
    hide Db.Valid, MergedPairs, Pairs;
    NoPairs(pairs, m);
    for j := 0 to |m.into|
      invariant db.Valid() && db.Read() == MergedPairs(t, pairs + Pairs(m.keep, m.into[..j]))
    {
      PairsMore(pairs, m, j);
      MergedPairsAppend(t, pairs + Pairs(m.keep, m.into[..j]), (m.keep, m.into[j]));
      FoldPair(db, m.keep, m.into[j]);
    }
    assert m.into[..|m.into|] == m.into;
  }

  lemma NoPairs(pairs: seq<(PatchId, PatchId)>, m: Merge)
    ensures pairs + Pairs(m.keep, m.into[..0]) == pairs
  {
  }

  lemma PairsMore(pairs: seq<(PatchId, PatchId)>, m: Merge, j: nat)
    requires j < |m.into|
    ensures pairs + Pairs(m.keep, m.into[..j + 1]) == pairs + Pairs(m.keep, m.into[..j]) + [(m.keep, m.into[j])]
  {
    assert m.into[..j + 1][..j] == m.into[..j];
  }

  ghost predicate MergesStored(t: Tables, merged: seq<Merge>) {
    forall i | 0 <= i < |merged| ::
      (merged[i].into != [] ==> merged[i].keep in t.patches) && forall x | x in merged[i].into :: x in t.patches
  }

  method FoldMerges(db: Db, merged: seq<Merge>)
    requires db.Valid() && MergesStored(db.Read(), merged)
    modifies db
    ensures db.Valid() && db.Read() == MergedPairs(old(db.Read()), AllPairs(merged))
  {
    ghost var t := db.Read();
    for i := 0 to |merged|
      invariant db.Valid() && db.Read() == MergedPairs(t, AllPairs(merged[..i]))
    {
      TakeOneMore(merged, i);
      AllPairsAppend(merged[..i], merged[i]);
      FoldMerge(db, merged[i], t, AllPairs(merged[..i]));
    }
    assert merged[..|merged|] == merged;
  }

  lemma {:induction false} MergesOfStored(t: Tables, lists: Lists, hashes: seq<Fingerprint>)
    requires forall fp | fp in hashes :: Group(t, lists, fp) != []
    ensures MergesStored(t, Merges(t, lists, hashes))
    decreases |hashes|
  {
    if hashes != [] {
      var fp := hashes[|hashes| - 1];
      MergesOfStored(t, lists, hashes[..|hashes| - 1]);
      KeeperStored(t, lists, fp);
      forall x | x in Group(t, lists, fp) ensures x in t.patches { InGroup(t, lists, fp, x); }
    }
  }

  method FoldLeftover(db: Db, lists: Lists, id: PatchId)
    requires db.Valid() && id in db.patches
    modifies db
    ensures db.Valid() && db.Read() == LeftoverFolded(old(db.Read()), lists, id)
  {
    var fp := HashOf(db.patches, id, lists);
    if fp.Some? {
      var holder := FindHolder(db, fp.value);
      if holder.Some? {
        var eff := ResolvePatch(db, holder.value);
        if eff != id {
          var _ := FoldInto(db, id, holder.value);
        }
      }
    }
  }

  method FoldLeftovers(db: Db, lists: Lists, ids: seq<PatchId>)
    requires db.Valid() && forall x | x in ids :: x in db.patches
    modifies db
    ensures db.Valid() && db.Read() == LeftoversFolded(old(db.Read()), lists, ids)
  {
    ghost var t := db.Read();
    for i := 0 to |ids|
      invariant db.Valid() && db.Read() == LeftoversFolded(t, lists, ids[..i])
    {
      TakeOneMore(ids, i);
      assert ids[..i + 1][..i] == ids[..i];
      FoldLeftover(db, lists, ids[i]);
    }
    assert ids[..|ids|] == ids;
  }

  /** The rows whose fingerprint the step changes to a new one. */
  ghost function Updated(t: Tables, lists: Lists): set<PatchId> {
    set id | id in t.patches && Planned(t, lists, id) && Want(t, lists, id).Some?
             && Want(t, lists, id) != t.patches[id].fingerprint
  }

  lemma WrittenIsRehashed(t: Tables, lists: Lists, want: map<PatchId, Option<Fingerprint>>)
    requires PlansFor(t, lists, NewHashes(t, lists), want)
    ensures want.Keys <= t.patches.Keys && WithFingerprints(t.patches, want) == Rehashed(t, lists)
    ensures Updated(t, lists) ==
            set x | x in want && x in t.patches && want[x] != t.patches[x].fingerprint && want[x].Some?
  {
    forall id
      ensures id in want <==> Planned(t, lists, id)
    {
      if Planned(t, lists, id) {
        assert id in Rows(t.patches);
        assert HashOf(t.patches, id, lists).value in NewHashes(t, lists);
      }
    }
    forall id | id in want.Keys ensures id in t.patches.Keys {
      assert Planned(t, lists, id);
    }
  }

  /** What is left to do once the fingerprints are written. */
  ghost function Finished(a: Tables, lists: Lists, merged: seq<Merge>): Tables {
    var b := MergedPairs(a, AllPairs(merged));
    var c := LeftoversFolded(b, lists, Leftovers(b.patches));
    c.(patches := AllTriaged(c.patches))
  }

  method FoldAndTriage(db: Db, lists: Lists, merged: seq<Merge>)
    requires db.Valid() && MergesStored(db.Read(), merged)
    modifies db
    ensures db.Valid() && db.Read() == Finished(old(db.Read()), lists, merged)
  {
    FoldMerges(db, merged);
    FoldLeftovers(db, lists, Leftovers(db.patches));
    TriagedKeepsConsistent(db.Read());
    db.patches := AllTriaged(db.patches);
  }

  lemma FinishedIsRefingerprinted(t: Tables, lists: Lists)
    requires Consistent(t) && DistinctFingerprints(Rehashed(t, lists))
    ensures
      var a := t.(patches := Rehashed(t, lists));
      && Consistent(a) && MergesStored(a, MergesOf(t, lists))
      && Finished(a, lists, MergesOf(t, lists)) == Refingerprinted(t, lists)
  {
    var a, b, c := Stages(t, lists);
    MergesOfStored(t, lists, NewHashes(t, lists));
  }

  method RefingerprintPatches(db: Db, lists: Lists) returns (r: Result<Report, UniqueViolation>)
    requires db.Valid()
    modifies db
    ensures db.Valid() && db.Read() == RefingerprintResult(old(db.Read()), lists)
    ensures r.Ok? <==> DistinctFingerprints(Rehashed(old(db.Read()), lists))
    ensures r.Ok? ==> r.value == Report(|Updated(old(db.Read()), lists)|, MergesOf(old(db.Read()), lists))
  {
    ghost var t := db.Read();
    var want, merged := PlanGroups(db, lists);
    WrittenIsRehashed(t, lists, want);
    var w := WriteFingerprints(db, want);
    if w.Err? { return Err(UniqueViolation); }
    FinishedIsRefingerprinted(t, lists);
    assert db.Read() == t.(patches := Rehashed(t, lists));
    FoldAndTriage(db, lists, merged);
    return Ok(Report(w.value, merged));
  }
}
