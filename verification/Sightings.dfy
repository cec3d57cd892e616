/**
 One go-live's inventory arrives (recordBalanceSighting in
 src/balancePatches.ts): find or create its patch and tag the round.
 */
module Sightings {
  import opened Wrappers
  import opened Inventories
  import opened PointerForest
  import opened BalanceTables
  import opened BalanceFold
  import opened BalancePatches
  import opened Refingerprint

  datatype Sighting = Sighting(
    round: RoundKey,
    server: Option<ServerId>,
    reported: Inventory,
    lists: Lists,
    now: Time,
    expected: Option<PatchId>)
  {
    function Seen(): Inventory {
      WithoutIgnored(reported, lists.ignored)
    }

    function Fp(): Fingerprint {
      FingerprintOf(Seen(), lists.versionless)
    }
  }

  datatype Outcome = Outcome(patch: PatchId, effective: PatchId, newPatch: bool, serverChanged: bool,
                             previous: Option<PatchId>, alerted: bool)

  function BoxBefore(t: Tables, s: Sighting): Option<Box> {
    if s.server.Some? && s.server.value in t.boxes then Some(t.boxes[s.server.value]) else None
  }

  /** Whether a stored inventory differs from what was seen in the watch list only. */
  predicate WatchOnly(stored: Option<Stored>, s: Sighting) {
    && stored.Some? && stored.value.Readable?
    && WatchListOnly(WithoutIgnored(stored.value.inventory, s.lists.ignored), s.Seen(), s.lists.versionless)
  }

  /** A new config waits for triage and remembers where its server came from. */
  function NewPatch(s: Sighting, cameFrom: Option<PatchId>): Patch {
    Patch(Some(s.Fp()), Detected, "", "", Some(Readable(s.Seen())), s.now, Pending, None, None, None, cameFrom)
  }

  ghost function CameFrom(t: Tables, s: Sighting): Option<PatchId> {
    match BoxBefore(t, s)
    case None => None
    case Some(box) => Some(Effective(t.patches, box.patch))
  }

  function InputsOf(ps: Patches, id: PatchId): Option<Stored> {
    if id in ps then ps[id].inputs else None
  }

  /** The rollout's patch seen with only the watch list changed. */
  predicate IsExpectedPlusWatch(ps: Patches, s: Sighting, id: PatchId) {
    s.expected.Some? && s.expected.value != id && WatchOnly(InputsOf(ps, s.expected.value), s)
  }

  /** The patch whose chain end a new patch joins without triage: the rollout's,
      else the one its server was on, when only the watch list changed. */
  function Joins(t: Tables, s: Sighting, id: PatchId): Option<PatchId> {
    var box := BoxBefore(t, s);
    if IsExpectedPlusWatch(t.patches, s, id) then s.expected
    else if box.Some? && WatchOnly(Some(box.value.inventory), s) then Some(box.value.patch)
    else None
  }

  ghost function WithPatch(t: Tables, s: Sighting, newId: PatchId): Tables {
    var u := t.(patches := t.patches[newId := NewPatch(s, CameFrom(t, s))]);
    match Joins(u, s, newId)
    case None => u
    case Some(j) => if Effective(u.patches, j) == newId then u else FoldedInto(u, newId, Effective(u.patches, j))
  }

  /** Whether the box reports what it reported before, ignored plugins aside. */
  predicate SameInventory(box: Option<Box>, s: Sighting) {
    && box.Some? && box.value.inventory.Readable?
    && WithoutIgnored(box.value.inventory.inventory, s.lists.ignored) == s.Seen()
  }

  function BoxAfter(box: Option<Box>, s: Sighting, id: PatchId): Box {
    Box(id, Readable(s.Seen()), if SameInventory(box, s) then box.value.since else s.now)
  }

  /** The round and the server's state once the sighting is known to be of `id`. */
  ghost function Tagged(t: Tables, s: Sighting, id: PatchId): Tables {
    t.(rounds := if s.round in t.rounds then t.rounds[s.round := Round(Some(Effective(t.patches, id)), Some(id))]
                 else t.rounds,
       boxes := if s.server.Some? then t.boxes[s.server.value := BoxAfter(BoxBefore(t, s), s, id)] else t.boxes)
  }

  /** Whether the admins are told: the box changed, by more than the watch list and not as a rollout expects. */
  predicate Alerts(t: Tables, s: Sighting, id: PatchId) {
    var box := BoxBefore(t, s);
    && s.server.Some? && !SameInventory(box, s)
    && !(box.Some? && WatchOnly(Some(box.value.inventory), s))
    && !IsExpectedPlusWatch(t.patches, s, id) && s.expected != Some(id)
  }

  ghost function Sighted(t: Tables, s: Sighting, newId: PatchId): Tables {
    match Holder(t.patches, s.Fp())
    case Some(id) => Tagged(t, s, id)
    case None => Tagged(WithPatch(t, s, newId), s, newId)
  }

  // ---------- what that means ----------

  lemma InsertKeepsConsistent(t: Tables, id: PatchId, p: Patch)
    requires Consistent(t) && id !in t.patches
    requires PublicationSound(p) && p.foldedInto.None?
    requires p.fingerprint.Some? ==> Holder(t.patches, p.fingerprint.value).None?
    ensures Consistent(t.(patches := t.patches[id := p]))
    ensures FoldPointers(t.patches[id := p]) == FoldPointers(t.patches)
  {
    var ps := t.patches[id := p];
    assert FoldPointers(ps) == FoldPointers(t.patches);
    forall x, y, f | Holds(ps, x, f) && Holds(ps, y, f) ensures x == y {
      assert x == id || Holds(t.patches, x, f);
      assert y == id || Holds(t.patches, y, f);
    }
  }

  lemma TagKeepsConsistent(t: Tables, s: Sighting, id: PatchId)
    requires Consistent(t) && id in t.patches
    ensures Consistent(Tagged(t, s, id))
  {
  }

  /** Adding the patch of a new config moves no stored patch. */
  lemma NewPatchMovesNoOther(t: Tables, s: Sighting, newId: PatchId)
    requires Consistent(t) && newId !in t.patches && Holder(t.patches, s.Fp()).None?
    ensures
      var u := WithPatch(t, s, newId);
      && Consistent(u) && u.patches.Keys == t.patches.Keys + {newId}
      && forall x | x in t.patches :: Effective(u.patches, x) == Effective(t.patches, x) && u.patches[x] == t.patches[x]
  {
    InsertKeepsConsistent(t, newId, NewPatch(s, CameFrom(t, s)));
    var u := t.(patches := t.patches[newId := NewPatch(s, CameFrom(t, s))]);
    var j := Joins(u, s, newId);
    if j.Some? {
      JoinsStored(t, s, newId);
      EffectiveStored(u, j.value);
      var end := Effective(u.patches, j.value);
      if end != newId && CanFold(u.patches, newId, end) {
        FoldKeepsConsistent(u, newId, end);
        FoldReroutes(u, newId, end);
        EndNotFolded(u, j.value);
        forall x | x in t.patches ensures !Passes(FoldPointers(u.patches), x, newId) {
          NewIdUnreached(t, newId, x);
        }
      }
    }
  }

  lemma JoinsStored(t: Tables, s: Sighting, newId: PatchId)
    requires Consistent(t) && newId !in t.patches
    ensures
      var u := t.(patches := t.patches[newId := NewPatch(s, CameFrom(t, s))]);
      Joins(u, s, newId).Some? ==> Joins(u, s, newId).value in t.patches
  {
    if BoxBefore(t, s).Some? { BoxPatchStored(t, s.server.value); }
  }

  lemma BoxPatchStored(t: Tables, server: ServerId)
    requires ReferencesHold(t) && server in t.boxes
    ensures t.boxes[server].patch in t.patches
  {
  }

  lemma EndNotFolded(t: Tables, id: PatchId)
    requires Consistent(t)
    ensures Effective(t.patches, Effective(t.patches, id)) == Effective(t.patches, id)
  {
    var m := FoldPointers(t.patches);
    EndsAt(m, id);
    RootNotKey(m, id);
    RootOfEnd(m, Root(m, id));
  }

  lemma NewIdUnreached(t: Tables, newId: PatchId, x: PatchId)
    requires Consistent(t) && newId !in t.patches && x in t.patches
    ensures !Passes(FoldPointers(t.patches), x, newId)
  {
    forall n: nat ensures Hop(FoldPointers(t.patches), x, n) != newId { HopStored(t.patches, x, n); }
  }

  lemma SightingKeepsConsistent(t: Tables, s: Sighting, newId: PatchId)
    requires Consistent(t) && newId !in t.patches
    ensures Consistent(Sighted(t, s, newId))
  {
    match Holder(t.patches, s.Fp())
    case Some(id) => TagKeepsConsistent(t, s, id);
    case None =>
      NewPatchMovesNoOther(t, s, newId);
      TagKeepsConsistent(WithPatch(t, s, newId), s, newId);
  }

  /** A config that only the watch list tells apart joins a patch already known
      instead of waiting for triage. */
  lemma WatchOnlyNeedsNoTriage(t: Tables, s: Sighting, newId: PatchId)
    requires Consistent(t) && newId !in t.patches && Holder(t.patches, s.Fp()).None?
    ensures
      var j := Joins(t, s, newId);
      var u := Sighted(t, s, newId);
      && (j.Some? ==> IsFolded(u.patches[newId]) && Effective(u.patches, newId) == Effective(t.patches, j.value))
      && (j.None? ==> u.patches[newId].triage == Pending && Effective(u.patches, newId) == newId)
  {
    InsertKeepsConsistent(t, newId, NewPatch(s, CameFrom(t, s)));
    var u := t.(patches := t.patches[newId := NewPatch(s, CameFrom(t, s))]);
    var m := FoldPointers(u.patches);
    var j := Joins(u, s, newId);
    assert j == Joins(t, s, newId);
    if j.None? {
      RootOfEnd(m, newId);
    } else {
      JoinsStored(t, s, newId);
      EffectiveStored(t, j.value);
      EndNotFolded(u, j.value);
      var end := Effective(u.patches, j.value);
      NewIdUnreached(t, newId, end);
      FoldReroutes(u, newId, end);
    }
  }

  /** The next sighting of the same config lands on the same patch and changes
      neither a patch nor what the round counts for. */
  lemma SameConfigSamePatch(t: Tables, s: Sighting, newId: PatchId, again: PatchId)
    requires Consistent(t) && newId !in t.patches
    requires again !in Sighted(t, s, newId).patches
    ensures Sighted(Sighted(t, s, newId), s, again) == Sighted(t, s, newId)
  {
    var h := Holder(t.patches, s.Fp());
    var id := if h.Some? then h.value else newId;
    var w := if h.Some? then t else WithPatch(t, s, newId);
    var u := Tagged(w, s, id);
    SightingKeepsConsistent(t, s, newId);
    NewPatchHolds(t, s, newId);
    HolderIs(u.patches, id, s.Fp());
    TagTwice(w, s, id);
  }

  lemma TagTwice(t: Tables, s: Sighting, id: PatchId)
    ensures Tagged(Tagged(t, s, id), s, id) == Tagged(t, s, id)
  {
    var u := Tagged(t, s, id);
    SeenTwice(s);
    assert Tagged(u, s, id).rounds == u.rounds;
    assert Tagged(u, s, id).boxes == u.boxes;
  }

  lemma NewPatchHolds(t: Tables, s: Sighting, newId: PatchId)
    ensures Holds(WithPatch(t, s, newId).patches, newId, s.Fp())
  {
  }

  lemma SeenTwice(s: Sighting)
    ensures WithoutIgnored(s.Seen(), s.lists.ignored) == s.Seen()
  {
  }

  // ---------- the call ----------

  method RecordBalanceSighting(db: Db, s: Sighting, newId: PatchId) returns (r: Outcome)
    requires db.Valid() && newId !in db.patches
    modifies db
    ensures db.Valid() && db.Read() == Sighted(old(db.Read()), s, newId)
    ensures Holds(db.patches, r.patch, s.Fp()) && r.effective == Effective(db.patches, r.patch)
    ensures r.newPatch <==> r.patch !in old(db.patches)
    ensures s.round in db.rounds ==> db.rounds[s.round] == Round(Some(r.effective), Some(r.patch))
    ensures r.serverChanged == (s.server.Some? && !SameInventory(BoxBefore(old(db.Read()), s), s))
    ensures r.previous == match BoxBefore(old(db.Read()), s) case None => None case Some(box) => Some(box.patch)
    ensures r.alerted <==> Alerts(old(db.Read()), s, r.patch)
  {
    ghost var t := db.Read();
    SightingKeepsConsistent(t, s, newId);
    var ps := db.patches;
    var box := if s.server.Some? && s.server.value in db.boxes then Some(db.boxes[s.server.value]) else None;
    var held := FindHolder(db, s.Fp());
    var id := held.GetOr(newId);
    if held.None? {
      NewPatchMovesNoOther(t, s, newId);
      AddPatch(db, s, newId);
      NewPatchHolds(t, s, newId);
    }
    var effective := ResolvePatch(db, id);
    if s.round in db.rounds {
      db.rounds := db.rounds[s.round := Round(Some(effective), Some(id))];
    }
    if s.server.Some? {
      db.boxes := db.boxes[s.server.value := BoxAfter(box, s, id)];
    }
    var watchOnly := box.Some? && WatchOnly(Some(box.value.inventory), s);
    var changed := s.server.Some? && !SameInventory(box, s);
    r := Outcome(id, effective, held.None?, changed, match box case None => None case Some(b) => Some(b.patch),
                 changed && !watchOnly && !IsExpectedPlusWatch(ps, s, id) && s.expected != Some(id));
  }

  method AddPatch(db: Db, s: Sighting, newId: PatchId)
    requires db.Valid() && newId !in db.patches && Holder(db.patches, s.Fp()).None?
    modifies db
    ensures db.Valid() && db.Read() == WithPatch(old(db.Read()), s, newId)
    ensures db.boxes == old(db.boxes)
  {
    ghost var t := db.Read();
    var cameFrom: Option<PatchId> := None;
    if s.server.Some? && s.server.value in db.boxes {
      var end := ResolvePatch(db, db.boxes[s.server.value].patch);
      cameFrom := Some(end);
    }
    InsertKeepsConsistent(t, newId, NewPatch(s, cameFrom));
    JoinsStored(t, s, newId);
    db.patches := db.patches[newId := NewPatch(s, cameFrom)];
    var joins := Joins(Tables(db.patches, db.rounds, db.contexts, db.boxes, db.ignored, db.rollout, db.generation), s,
                       newId);
    if joins.Some? {
      var target := ResolvePatch(db, joins.value);
      EffectiveStored(db.Read(), joins.value);
      if target != newId {
        var _ := FoldInto(db, newId, target);
      }
    }
  }
}
