/**
 The tables the balance code reads and writes (balance_patches, the patch
 columns of match_rounds and round_metric_context, balance_server_state, the
 site ignore list and the active rollout), and what holds of them between calls.
 */
module BalanceTables {
  import opened Wrappers
  import opened Inventories
  import opened PointerForest

  type PatchId = int
  type ServerId = int
  type Time = int

  datatype Source = Announced | Detected | Historical

  /** NULL until the triage columns were filled; read as Balance. */
  datatype Triage = Untriaged | Pending | Balance | Folded

  /** A stored inventory: JSON text that reads back, or does not. */
  datatype Stored = Readable(inventory: Inventory) | Unreadable

  datatype Patch = Patch(
    fingerprint: Option<Fingerprint>,
    source: Source,
    name: string,
    notes: string,
    inputs: Option<Stored>,
    firstSeen: Time,
    triage: Triage,
    foldedInto: Option<PatchId>,
    publishedAt: Option<Time>,
    publishedBeforeFold: Option<Time>,
    cameFrom: Option<PatchId>)

  datatype RoundKey = RoundKey(matchId: nat, ordinal: nat, half: nat)

  /** `sighted` is the patch whose fingerprint the round reported, `patch` the
      one it counts for. */
  datatype Round = Round(patch: Option<PatchId>, sighted: Option<PatchId>)

  datatype Box = Box(patch: PatchId, inventory: Stored, since: Time)

  type Patches = map<PatchId, Patch>

  datatype Tables = Tables(
    patches: Patches,
    rounds: map<RoundKey, Round>,
    contexts: map<RoundKey, Option<PatchId>>,
    boxes: map<ServerId, Box>,
    ignored: set<string>,
    rollout: Option<PatchId>,
    generation: nat)

  /** The open database. */
  class Db {
    var patches: Patches
    var rounds: map<RoundKey, Round>
    var contexts: map<RoundKey, Option<PatchId>>
    var boxes: map<ServerId, Box>
    var ignored: set<string>
    var rollout: Option<PatchId>
    var generation: nat

    ghost function Read(): Tables
      reads this
    {
      Tables(patches, rounds, contexts, boxes, ignored, rollout, generation)
    }

    ghost predicate Valid()
      reads this
    {
      Consistent(Read())
    }

    constructor ()
      ensures Valid() && patches == map[] && rounds == map[]
    {
      patches, rounds, contexts, boxes, ignored, rollout, generation := map[], map[], map[], map[], {}, None, 0;
      new;
      assert FoldPointers(patches) == map[];
      forall x: PatchId ensures Ends(FoldPointers(patches), x) { RootOfEnd(FoldPointers(patches), x); }
    }
  }

  predicate IsFolded(p: Patch) {
    p.triage == Folded && p.foldedInto.Some?
  }

  /** COALESCE(triage, 'balance') = 'balance'. */
  predicate CountsAsBalance(p: Patch) {
    p.triage == Balance || p.triage == Untriaged
  }

  function FoldPointers(ps: Patches): Pointers<PatchId> {
    map id | id in ps && IsFolded(ps[id]) :: ps[id].foldedInto.value
  }

  /** The patch that sightings of `id` count for. */
  ghost function Effective(ps: Patches, id: PatchId): PatchId {
    Root(FoldPointers(ps), id)
  }

  ghost predicate Holds(ps: Patches, id: PatchId, fp: Fingerprint) {
    id in ps && ps[id].fingerprint == Some(fp)
  }

  /** The UNIQUE constraint on the fingerprint column. */
  ghost predicate DistinctFingerprints(ps: Patches) {
    forall x, y, fp :: Holds(ps, x, fp) && Holds(ps, y, fp) ==> x == y
  }

  /** SELECT id WHERE fingerprint = ?. */
  ghost function Holder(ps: Patches, fp: Fingerprint): (r: Option<PatchId>)
    ensures r.Some? ==> Holds(ps, r.value, fp)
    ensures r.None? ==> forall id :: !Holds(ps, id, fp)
  {
    if id :| Holds(ps, id, fp) then Some(id) else None
  }

  lemma HolderIs(ps: Patches, id: PatchId, fp: Fingerprint)
    requires DistinctFingerprints(ps) && Holds(ps, id, fp)
    ensures Holder(ps, fp) == Some(id)
  {
  }

  /** Every id a row refers to is the id of a patch. */
  ghost predicate ReferencesHold(t: Tables) {
    && (forall id | id in t.patches && t.patches[id].foldedInto.Some? :: t.patches[id].foldedInto.value in t.patches)
    && (forall k | k in t.rounds && t.rounds[k].sighted.Some? :: t.rounds[k].sighted.value in t.patches)
    && (forall s | s in t.boxes :: t.boxes[s].patch in t.patches)
    && (t.rollout.Some? ==> t.rollout.value in t.patches)
  }

  /** Every round with a sighted patch counts for what that patch resolves to. */
  ghost predicate TagsDerived(t: Tables) {
    forall k | k in t.rounds && t.rounds[k].sighted.Some? ::
      t.rounds[k].patch == Some(Effective(t.patches, t.rounds[k].sighted.value))
  }

  /** A published patch is a balance patch; a publish time is put aside only
      while its patch is folded; folded means folded into something. */
  predicate PublicationSound(p: Patch) {
    && (p.publishedAt.Some? ==> CountsAsBalance(p))
    && (p.publishedBeforeFold.Some? ==> p.triage == Folded)
    && (p.triage == Folded <==> p.foldedInto.Some?)
  }

  ghost predicate Consistent(t: Tables) {
    && Acyclic(FoldPointers(t.patches))
    && TagsDerived(t)
    && DistinctFingerprints(t.patches)
    && ReferencesHold(t)
    && forall id | id in t.patches :: PublicationSound(t.patches[id])
  }

  /** The chain of a stored patch stays among stored patches. */
  lemma {:induction false} HopStored(ps: Patches, id: PatchId, n: nat)
    requires forall x | x in ps && ps[x].foldedInto.Some? :: ps[x].foldedInto.value in ps
    requires id in ps
    ensures Hop(FoldPointers(ps), id, n) in ps
    decreases n
  {
    if n > 0 && id in FoldPointers(ps) {
      HopStored(ps, FoldPointers(ps)[id], n - 1);
    }
  }

  lemma EffectiveStored(t: Tables, id: PatchId)
    requires Consistent(t) && id in t.patches
    ensures Effective(t.patches, id) in t.patches
  {
    var m := FoldPointers(t.patches);
    EndsAt(m, id);
    var n: nat :| Hop(m, id, n) !in m && Root(m, id) == Hop(m, id, n);
    HopStored(t.patches, id, n);
  }
}
