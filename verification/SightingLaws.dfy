/**
 What a sighting (src/balancePatches.ts) makes of a config nobody has seen before, said over the inventories
 themselves: when only the watch list tells it apart it joins a known patch without triage, and otherwise it waits.
 */
module SightingLaws {
  import opened Wrappers
  import opened Inventories
  import opened PointerForest
  import opened BalanceTables
  import opened BalanceFold
  import opened BalancePatches
  import opened Sightings

  /** A key that counts: not a plugin on the ignore list. */
  predicate Counts(lists: Lists, k: Key) {
    !(k.Plugin? && k.file in lists.ignored)
  }

  predicate InOneOnly(a: Inventory, b: Inventory, lists: Lists, k: Key) {
    Counts(lists, k) && (k in a) != (k in b)
  }

  predicate Watched(k: Key) {
    k.Cvar? || k.MissingCvar? || k.Weapon? || k.File? || k.Dir?
  }

  /** A key for the value of a cvar, or for its absence. */
  predicate OfCvar(k: Key, name: string) {
    k == Cvar(name) || k == MissingCvar(name)
  }

  /**
   From `a` to `b` the watch list changed and the game did not: they agree on every key both have, builds of
   versionless plugins aside; they differ in some keys that only one has; all of these are watched; and no cvar
   came or went, with a key before and another after.
   */
  ghost predicate OnlyWatchListDiffers(a: Inventory, b: Inventory, lists: Lists) {
    && (forall k | k in a && k in b && Counts(lists, k) && a[k] != b[k] :: k.Plugin? && k.file in lists.versionless)
    && (exists k :: InOneOnly(a, b, lists, k))
    && (forall k | InOneOnly(a, b, lists, k) :: Watched(k))
    && forall n, j, k | InOneOnly(a, b, lists, j) && InOneOnly(a, b, lists, k) && OfCvar(j, n) && OfCvar(k, n) ::
         (j in a) == (k in a)
  }

  lemma OneSidedKeys(a: Inventory, b: Inventory, lists: Lists)
    ensures
      var x, y := WithoutIgnored(a, lists.ignored), WithoutIgnored(b, lists.ignored);
      && (forall k :: k in Added(x, y) <==> InOneOnly(a, b, lists, k) && k in b)
      && (forall k :: k in Removed(x, y) <==> InOneOnly(a, b, lists, k) && k in a)
      && (forall k :: k in Changed(x, y) <==> k in a && k in b && Counts(lists, k) && a[k] != b[k])
  {
  }

  lemma NamesOf(keys: set<Key>, n: string)
    ensures n in CvarNames(keys) <==> exists k :: k in keys && OfCvar(k, n)
  {
    if n in CvarNames(keys) {
      var k :| k in keys && IsCvarKind(k) && k.name == n;
      assert OfCvar(k, n);
    }
    if k :| k in keys && OfCvar(k, n) { assert IsCvarKind(k) && k.name == n; }
  }

  lemma NoCvarCameOrWent(a: Inventory, b: Inventory, lists: Lists)
    ensures
      var x, y := WithoutIgnored(a, lists.ignored), WithoutIgnored(b, lists.ignored);
      CvarNames(Added(x, y)) !! CvarNames(Removed(x, y)) <==>
      forall n, j, k | InOneOnly(a, b, lists, j) && InOneOnly(a, b, lists, k) && OfCvar(j, n) && OfCvar(k, n) ::
        (j in a) == (k in a)
  {
    var x, y := WithoutIgnored(a, lists.ignored), WithoutIgnored(b, lists.ignored);
    var came, gone := Added(x, y), Removed(x, y);
    OneSidedKeys(a, b, lists);
    forall n
      ensures n in CvarNames(came) <==> exists k :: k in came && OfCvar(k, n)
      ensures n in CvarNames(gone) <==> exists k :: k in gone && OfCvar(k, n)
    {
      NamesOf(came, n);
      NamesOf(gone, n);
    }
    hide CvarNames, Added, Removed, WithoutIgnored;
    if n :| n in CvarNames(came) && n in CvarNames(gone) {
      var j :| j in came && OfCvar(j, n);
      var k :| k in gone && OfCvar(k, n);
      assert InOneOnly(a, b, lists, j) && InOneOnly(a, b, lists, k) && (j in a) != (k in a);
    }
    if n, j, k :| InOneOnly(a, b, lists, j) && InOneOnly(a, b, lists, k) && OfCvar(j, n) && OfCvar(k, n)
                  && (j in a) != (k in a) {
      assert n in CvarNames(came) && n in CvarNames(gone);
    }
  }

  lemma WatchListOnlyMeans(a: Inventory, b: Inventory, lists: Lists)
    ensures WatchListOnly(WithoutIgnored(a, lists.ignored), WithoutIgnored(b, lists.ignored), lists.versionless)
       <==> OnlyWatchListDiffers(a, b, lists)
  {
    OneSidedKeys(a, b, lists);
    NoCvarCameOrWent(a, b, lists);
    hide CvarNames, Added, Removed, Changed, WithoutIgnored;
    var x, y := WithoutIgnored(a, lists.ignored), WithoutIgnored(b, lists.ignored);
    var oneSided := Added(x, y) + Removed(x, y);
    forall k ensures k in oneSided <==> InOneOnly(a, b, lists, k) {}
    forall k ensures IsWatchedKind(k) <==> Watched(k) {}
    assert oneSided != {} <==> exists k :: k in oneSided;
  }

  // ---------- whom a new patch joins ----------

  /** The stored inputs read back, and only the watch list tells the report from them. */
  ghost predicate Vouches(stored: Option<Stored>, s: Sighting) {
    && stored.Some? && stored.value.Readable?
    && OnlyWatchListDiffers(stored.value.inventory, s.reported, s.lists)
  }

  /** The patch the rollout expects on the server vouches for what it reports. */
  ghost predicate ExpectedVouches(t: Tables, s: Sighting) {
    s.expected.Some? && s.expected.value in t.patches && Vouches(t.patches[s.expected.value].inputs, s)
  }

  /** What the server reported before does. */
  ghost predicate BoxVouches(t: Tables, s: Sighting) {
    s.server.Some? && s.server.value in t.boxes && Vouches(Some(t.boxes[s.server.value].inventory), s)
  }

  /** A patch of the fingerprint reported, ignored plugins aside. */
  ghost predicate Known(t: Tables, s: Sighting, id: PatchId) {
    var seen := WithoutIgnored(s.reported, s.lists.ignored);
    id in t.patches && t.patches[id].fingerprint == Some(FingerprintOf(seen, s.lists.versionless))
  }

  lemma VouchesIs(stored: Option<Stored>, s: Sighting)
    ensures WatchOnly(stored, s) <==> Vouches(stored, s)
  {
    if stored.Some? && stored.value.Readable? {
      WatchListOnlyMeans(stored.value.inventory, s.reported, s.lists);
    }
  }

  lemma JoinsIs(t: Tables, s: Sighting, newId: PatchId)
    requires newId !in t.patches
    ensures Joins(t, s, newId).Some? <==> ExpectedVouches(t, s) || BoxVouches(t, s)
    ensures ExpectedVouches(t, s) ==> Joins(t, s, newId) == s.expected
    ensures !ExpectedVouches(t, s) && BoxVouches(t, s) ==> Joins(t, s, newId) == Some(t.boxes[s.server.value].patch)
    ensures !ExpectedVouches(t, s) && !BoxVouches(t, s) ==> Joins(t, s, newId) == None
  {
    hide WatchOnly, Vouches;
    if s.expected.Some? { VouchesIs(InputsOf(t.patches, s.expected.value), s); }
    NoInputsVouchNothing(s);
    if BoxBefore(t, s).Some? { VouchesIs(Some(BoxBefore(t, s).value.inventory), s); }
  }

  lemma NoInputsVouchNothing(s: Sighting)
    ensures !WatchOnly(None, s)
  {
  }

  lemma NobodyHolds(t: Tables, s: Sighting)
    requires forall id :: !Known(t, s, id)
    ensures Holder(t.patches, s.Fp()).None?
  {
    var h := Holder(t.patches, s.Fp());
    if h.Some? { assert Known(t, s, h.value); }
  }

  /**
   A config nobody has is folded by its own sighting exactly when the expected patch, or else what the server
   reported before, differs from it in the watch list only; it then counts for what the one that vouches counts
   for, the expected patch first. Otherwise it waits for triage on its own.
   */
  lemma NewConfigIsFoldedIff(t: Tables, s: Sighting, newId: PatchId)
    requires Consistent(t) && newId !in t.patches && forall id :: !Known(t, s, id)
    ensures
      var u := Sighted(t, s, newId).patches;
      && newId in u
      && (IsFolded(u[newId]) <==> ExpectedVouches(t, s) || BoxVouches(t, s))
      && (ExpectedVouches(t, s) ==> Effective(u, newId) == Effective(t.patches, s.expected.value))
      && (!ExpectedVouches(t, s) && BoxVouches(t, s) ==>
            Effective(u, newId) == Effective(t.patches, t.boxes[s.server.value].patch))
      && (!ExpectedVouches(t, s) && !BoxVouches(t, s) ==> u[newId].triage == Pending && Effective(u, newId) == newId)
  {
    hide Sighted, ExpectedVouches, BoxVouches, Joins;
    NobodyHolds(t, s);
    WatchOnlyNeedsNoTriage(t, s, newId);
    JoinsIs(t, s, newId);
    NewIsStored(t, s, newId);
  }

  lemma NewIsStored(t: Tables, s: Sighting, newId: PatchId)
    requires Holder(t.patches, s.Fp()).None?
    ensures newId in Sighted(t, s, newId).patches
  {
  }

  // ---------- what a sighting writes ----------

  /** The box's state: the patch and what was reported; since when, unless it reports what it did before. */
  ghost predicate BoxWritten(t: Tables, s: Sighting, id: PatchId, u: Tables) {
    && (s.server.None? ==> u.boxes == t.boxes)
    && (s.server.Some? ==>
          var seen := WithoutIgnored(s.reported, s.lists.ignored);
          var same := && s.server.value in t.boxes && t.boxes[s.server.value].inventory.Readable?
                      && WithoutIgnored(t.boxes[s.server.value].inventory.inventory, s.lists.ignored) == seen;
          u.boxes == t.boxes[s.server.value :=
            Box(id, Readable(seen), if same then t.boxes[s.server.value].since else s.now)])
  }

  /** The round counts for what its patch resolves to; no other does for anything else. */
  ghost predicate RoundWritten(t: Tables, s: Sighting, id: PatchId, u: Tables) {
    u.rounds == if s.round in t.rounds then t.rounds[s.round := Round(Some(Effective(u.patches, id)), Some(id))]
                else t.rounds
  }

  /** A known config changes the round and the box, and no patch. */
  lemma KnownConfigIsTagged(t: Tables, s: Sighting, newId: PatchId, id: PatchId)
    requires Consistent(t) && Known(t, s, id)
    ensures
      var u := Sighted(t, s, newId);
      && u == t.(rounds := u.rounds, boxes := u.boxes)
      && RoundWritten(t, s, id, u) && BoxWritten(t, s, id, u)
  {
    hide Consistent;
    SightedKnown(t, s, newId, id);
  }

  lemma SightedKnown(t: Tables, s: Sighting, newId: PatchId, id: PatchId)
    requires Consistent(t) && Known(t, s, id)
    ensures Sighted(t, s, newId) == Tagged(t, s, id)
  {
    HolderIs(t.patches, id, s.Fp());
  }

  /** The columns of a new patch; only a fold changes its triage. */
  ghost predicate NewRow(t: Tables, s: Sighting, p: Patch) {
    && p.fingerprint == Some(FingerprintOf(WithoutIgnored(s.reported, s.lists.ignored), s.lists.versionless))
    && p.source == Detected && p.inputs == Some(Readable(WithoutIgnored(s.reported, s.lists.ignored)))
    && p.firstSeen == s.now && p.publishedAt.None? && p.publishedBeforeFold.None?
    && p.cameFrom == if s.server.Some? && s.server.value in t.boxes
                     then Some(Effective(t.patches, t.boxes[s.server.value].patch)) else None
  }

  /** A new config adds one row, which remembers where its server came from, and changes no other patch. */
  lemma NewConfigIsAdded(t: Tables, s: Sighting, newId: PatchId)
    requires Consistent(t) && newId !in t.patches && forall id :: !Known(t, s, id)
    ensures
      var u := Sighted(t, s, newId);
      && u.patches.Keys == t.patches.Keys + {newId} && (forall x | x in t.patches :: u.patches[x] == t.patches[x])
      && NewRow(t, s, u.patches[newId])
      && RoundWritten(t, s, newId, u) && BoxWritten(t, s, newId, u)
      && u.ignored == t.ignored && u.rollout == t.rollout
  {
    hide WithPatch, Joins;
    NobodyHolds(t, s);
    NewPatchMovesNoOther(t, s, newId);
    RoundsKept(t, s, newId);
    RoundsAreAsTagged(t, WithPatch(t, s, newId));
    NewRowAdded(t, s, newId);
  }

  /** A fold retags, which changes neither which rounds there are nor what they were sighted as. */
  lemma RoundsKept(t: Tables, s: Sighting, newId: PatchId)
    ensures
      var u := WithPatch(t, s, newId);
      && u.rounds.Keys == t.rounds.Keys
      && (forall k | k in t.rounds :: u.rounds[k].sighted == t.rounds[k].sighted)
      && (forall k | k in t.rounds && t.rounds[k].sighted.None? :: u.rounds[k] == t.rounds[k])
  {
    hide Joins, CanFold, Effective;
  }

  lemma NewRowAdded(t: Tables, s: Sighting, newId: PatchId)
    ensures
      var u := WithPatch(t, s, newId);
      newId in u.patches && NewRow(t, s, u.patches[newId])
      && u.boxes == t.boxes && u.ignored == t.ignored && u.rollout == t.rollout
  {
    hide Joins, CanFold;
  }

  /** Rounds derived from the same patches under the same resolution are the same. */
  lemma RoundsAreAsTagged(t: Tables, u: Tables)
    requires TagsDerived(t) && ReferencesHold(t) && TagsDerived(u) && u.rounds.Keys == t.rounds.Keys
    requires forall k | k in t.rounds :: u.rounds[k].sighted == t.rounds[k].sighted
    requires forall k | k in t.rounds && t.rounds[k].sighted.None? :: u.rounds[k] == t.rounds[k]
    requires forall x | x in t.patches :: Effective(u.patches, x) == Effective(t.patches, x)
    ensures u.rounds == t.rounds
  {
  }

  /** The admins are told of a box exactly when it reports something else than before, more than the watch list
      changed since then and since the expected patch, and the patch is not the expected one. */
  lemma AlertsIff(t: Tables, s: Sighting, id: PatchId)
    ensures Alerts(t, s, id) <==>
      && s.server.Some? && s.expected != Some(id) && !ExpectedVouches(t, s) && !BoxVouches(t, s)
      && !(s.server.value in t.boxes && t.boxes[s.server.value].inventory.Readable?
           && WithoutIgnored(t.boxes[s.server.value].inventory.inventory, s.lists.ignored)
              == WithoutIgnored(s.reported, s.lists.ignored))
  {
    hide WatchOnly, Vouches;
    if s.expected.Some? { VouchesIs(InputsOf(t.patches, s.expected.value), s); }
    NoInputsVouchNothing(s);
    if BoxBefore(t, s).Some? { VouchesIs(Some(BoxBefore(t, s).value.inventory), s); }
  }
}
