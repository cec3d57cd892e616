/**
 The other writers of balance_patches: the publication state (publishPatch in
 src/balancePublic.ts) and the patch a knob panel apply announces (applyKnobs
 in src/balanceRollouts.ts).
 */
module BalancePublic {
  import opened Wrappers
  import opened Inventories
  import opened PointerForest
  import opened BalanceTables
  import opened BalancePatches
  import opened Refingerprint
  import opened Sightings
  import opened BalanceTriage

  datatype PublishError = NoPatch | TriageFirst | PublishTarget | Incomplete

  /** `counted` is the number of counted rounds of the patch. */
  function PublishCheck(ps: Patches, id: PatchId, published: bool, counted: nat): Result<(), PublishError> {
    if id !in ps then Err(NoPatch)
    else if !published then Ok(())
    else if ps[id].triage == Pending then Err(TriageFirst)
    else if ps[id].triage == Folded then Err(PublishTarget)
    else if ps[id].name == "" || ps[id].notes == "" || counted == 0 then Err(Incomplete)
    else Ok(())
  }

  function PublishedPatch(p: Patch, published: bool, now: Time): Patch {
    if !published then p.(publishedAt := None, publishedBeforeFold := None)
    else if p.publishedAt.None? then p.(publishedAt := Some(now))
    else p
  }

  function PublishedAs(t: Tables, id: PatchId, published: bool, counted: nat, now: Time): Tables {
    if PublishCheck(t.patches, id, published, counted).Ok? then
      t.(patches := t.patches[id := PublishedPatch(t.patches[id], published, now)])
    else t
  }

  lemma PublishKeepsConsistent(t: Tables, id: PatchId, published: bool, counted: nat, now: Time)
    requires Consistent(t)
    ensures Consistent(PublishedAs(t, id, published, counted, now))
  {
    if PublishCheck(t.patches, id, published, counted).Ok? {
      EditKeepsConsistent(t, id, PublishedPatch(t.patches[id], published, now));
    }
  }

  method PublishPatch(db: Db, id: PatchId, published: bool, counted: nat, now: Time)
    returns (r: Result<(), PublishError>)
    requires db.Valid()
    modifies db`patches
    ensures db.Valid() && db.Read() == PublishedAs(old(db.Read()), id, published, counted, now)
    ensures r == PublishCheck(old(db.patches), id, published, counted)
  {
    PublishKeepsConsistent(db.Read(), id, published, counted, now);
    r := PublishCheck(db.patches, id, published, counted);
    if r.Ok? {
      db.patches := db.patches[id := PublishedPatch(db.patches[id], published, now)];
    }
  }

  // ---------- the patch of an apply ----------

  /** What previewKnobs found of the draft. */
  datatype Preview = Preview(errors: bool, base: bool, missing: bool, blocking: bool)

  /**
   `latest` is the newest rollout, `based` the one the admin's preview was made against, when the
   request names it.
   */
  datatype Apply = Apply(
    latest: Option<int>, based: Option<Option<int>>, preview: Preview,
    predicted: Inventory, versionless: set<string>, name: string, notes: string, now: Time)

  datatype ApplyError =
    | AppliedSince | DraftErrors | NothingToPredictFrom | NotReported | ServersDiffer
    | ConfigIsFolded | NeedsName | NeedsNotes | TooLong

  /** Refused before any patch is looked at. */
  function PreviewRefuses(a: Apply): Option<ApplyError> {
    if a.based.Some? && a.based.value != a.latest then Some(AppliedSince)
    else if a.preview.errors then Some(DraftErrors)
    else if !a.preview.base then Some(NothingToPredictFrom)
    else if a.preview.missing then Some(NotReported)
    else if a.preview.blocking then Some(ServersDiffer)
    else None
  }

  function AnnouncedPatch(a: Apply): Patch {
    Patch(Some(FingerprintOf(a.predicted, a.versionless)), Announced, a.name, a.notes, Some(Readable(a.predicted)),
          a.now, Balance, None, None, None, None)
  }

  /** A config seen before keeps its patch; choosing it says it is balance. */
  function ChosenPatch(p: Patch, a: Apply): Patch {
    p.(name := if p.name == "" then a.name else p.name,
       notes := if p.notes == "" then a.notes else p.notes,
       triage := if p.triage == Pending then Balance else p.triage)
  }

  ghost function ApplyCheck(t: Tables, a: Apply): Result<(), ApplyError> {
    if PreviewRefuses(a).Some? then Err(PreviewRefuses(a).value)
    else if |a.name| > NAME_MAX || |a.notes| > NOTES_MAX then Err(TooLong)
    else match Holder(t.patches, FingerprintOf(a.predicted, a.versionless))
    case Some(id) =>
      if t.patches[id].triage == Folded then Err(ConfigIsFolded)
      else if t.patches[id].name == "" && a.name == "" then Err(NeedsName) else Ok(())
    case None => if a.name == "" then Err(NeedsName) else if a.notes == "" then Err(NeedsNotes) else Ok(())
  }

  ghost function Applied(t: Tables, a: Apply, newId: PatchId): Tables {
    if ApplyCheck(t, a).Err? then t
    else match Holder(t.patches, FingerprintOf(a.predicted, a.versionless))
    case Some(id) => t.(patches := t.patches[id := ChosenPatch(t.patches[id], a)], rollout := Some(id))
    case None => t.(patches := t.patches[newId := AnnouncedPatch(a)], rollout := Some(newId))
  }

  /** The patch of a new rollout is a stored, unfolded balance patch. */
  lemma ApplyKeepsConsistent(t: Tables, a: Apply, newId: PatchId)
    requires Consistent(t) && newId !in t.patches
    ensures Consistent(Applied(t, a, newId))
    ensures ApplyCheck(t, a).Ok? ==>
      var u := Applied(t, a, newId);
      u.rollout.Some? && u.rollout.value in u.patches && CountsAsBalance(u.patches[u.rollout.value])
  {
    if ApplyCheck(t, a).Ok? {
      match Holder(t.patches, FingerprintOf(a.predicted, a.versionless))
      case Some(id) => EditKeepsConsistent(t, id, ChosenPatch(t.patches[id], a));
      case None => InsertKeepsConsistent(t, newId, AnnouncedPatch(a));
    }
  }

  method ApplyKnobs(db: Db, a: Apply, newId: PatchId) returns (r: Result<PatchId, ApplyError>)
    requires db.Valid() && newId !in db.patches
    modifies db
    ensures db.Valid() && db.Read() == Applied(old(db.Read()), a, newId)
    ensures r.Ok? ==>
      db.rollout == Some(r.value) && Holds(db.patches, r.value, FingerprintOf(a.predicted, a.versionless))
    ensures r.Err? ==> ApplyCheck(old(db.Read()), a) == Err(r.error)
  {
    ApplyKeepsConsistent(db.Read(), a, newId);
    if a.based.Some? && a.based.value != a.latest { return Err(AppliedSince); }
    if a.preview.errors { return Err(DraftErrors); }
    if !a.preview.base { return Err(NothingToPredictFrom); }
    if a.preview.missing { return Err(NotReported); }
    if a.preview.blocking { return Err(ServersDiffer); }
    if |a.name| > NAME_MAX || |a.notes| > NOTES_MAX { return Err(TooLong); }
    var held := FindHolder(db, FingerprintOf(a.predicted, a.versionless));
    var id := held.GetOr(newId);
    if held.Some? {
      var p := db.patches[id];
      if p.triage == Folded { return Err(ConfigIsFolded); }
      if p.name == "" && a.name == "" { return Err(NeedsName); }
      db.patches := db.patches[id := ChosenPatch(p, a)];
    } else {
      if a.name == "" { return Err(NeedsName); }
      if a.notes == "" { return Err(NeedsNotes); }
      db.patches := db.patches[id := AnnouncedPatch(a)];
    }
    db.rollout := Some(id);
    return Ok(id);
  }
}
