/**
 A box that a release wrote reports its first match (linkReleaseSighting in src/releaseBalance.ts):
 the release's decision is applied to the config it reports, if that still waits for triage.
 */
module ReleaseBalance {
  import opened Wrappers
  import opened PointerForest
  import opened BalanceTables
  import opened BalanceFold
  import opened BalanceTriage

  datatype Decision = IsBalance(name: string, notes: string) | NotBalance | Undecided

  /** `decision` is that of the newest release whose write to this box is not confirmed yet, if there is one. */
  ghost function Linked(t: Tables, id: PatchId, previous: Option<PatchId>, decision: Option<Decision>): (r: Tables)
    ensures r.patches.Keys == t.patches.Keys
  {
    if decision.None? || previous == Some(id) || id !in t.patches || t.patches[id].triage != Pending then t
    else
      match decision.value
      case IsBalance(name, notes) =>
        t.(patches := t.patches[id := t.patches[id].(triage := Balance, name := name, notes := notes)])
      case NotBalance =>
        if previous.None? || Effective(t.patches, previous.value) == id then t
        else FoldedInto(t, id, Effective(t.patches, previous.value))
      case Undecided => t
  }

  lemma LinkKeepsConsistent(t: Tables, id: PatchId, previous: Option<PatchId>, decision: Option<Decision>)
    requires Consistent(t) && (previous.Some? ==> previous.value in t.patches)
    ensures Consistent(Linked(t, id, previous, decision))
  {
    hide Consistent;
    if decision.Some? && id in t.patches {
      if decision.value.IsBalance? {
        BalanceEditKeeps(t, id, decision.value.name, decision.value.notes);
      } else if previous.Some? {
        EffectiveStored(t, previous.value);
        FoldKeepsConsistent(t, id, Effective(t.patches, previous.value));
      }
    }
  }

  lemma BalanceEditKeeps(t: Tables, id: PatchId, name: string, notes: string)
    requires Consistent(t) && id in t.patches
    ensures t.patches[id].triage == Pending ==>
      Consistent(t.(patches := t.patches[id := t.patches[id].(triage := Balance, name := name, notes := notes)]))
  {
    if t.patches[id].triage == Pending {
      EditKeepsConsistent(t, id, t.patches[id].(triage := Balance, name := name, notes := notes));
    }
  }

  /**
   A config that waits for triage, decided not to be a balance change, counts from then on for whatever
   the box's config before it counts for, and so does all that is folded into it; nothing else moves.
   Decided to be one it is a balance patch and nothing moves.
   */
  lemma DecisionApplies(t: Tables, id: PatchId, previous: PatchId, decision: Decision)
    requires Consistent(t) && id in t.patches && t.patches[id].triage == Pending
    requires previous in t.patches && Effective(t.patches, previous) != id
    ensures
      var u := Linked(t, id, Some(previous), Some(decision));
      match decision
      case NotBalance =>
        && IsFolded(u.patches[id]) && Effective(u.patches, id) == Effective(t.patches, previous)
        && forall x :: Effective(u.patches, x) ==
             if Passes(FoldPointers(t.patches), x, id) then Effective(t.patches, previous) else Effective(t.patches, x)
      case IsBalance(_, _) =>
        CountsAsBalance(u.patches[id]) && forall x :: Effective(u.patches, x) == Effective(t.patches, x)
      case Undecided => u == t
  {
    var m := FoldPointers(t.patches);
    RootOfEnd(m, id);
    match decision
    case NotBalance =>
      var target := Effective(t.patches, previous);
      EndsAt(m, previous);
      RootNotKey(m, previous);
      RootOfEnd(m, target);
      PassesStep(m, target, id);
      FoldReroutes(t, id, target);
    case IsBalance(name, notes) =>
      EditKeepsConsistent(t, id, t.patches[id].(triage := Balance, name := name, notes := notes));
    case Undecided =>
  }

  method LinkReleaseSighting(db: Db, id: PatchId, previous: Option<PatchId>, decision: Option<Decision>)
    requires db.Valid() && (previous.Some? ==> previous.value in db.patches)
    modifies db
    ensures db.Valid() && db.Read() == Linked(old(db.Read()), id, previous, decision)
  {
    LinkKeepsConsistent(db.Read(), id, previous, decision);
    if decision.None? || previous == Some(id) { return; }
    if id !in db.patches || db.patches[id].triage != Pending { return; }
    match decision.value
    case IsBalance(name, notes) =>
      db.patches := db.patches[id := db.patches[id].(triage := Balance, name := name, notes := notes)];
    case NotBalance =>
      if previous.None? { return; }
      var target := ResolvePatch(db, previous.value);
      EffectiveStored(db.Read(), previous.value);
      if target != id { var _ := FoldInto(db, id, target); }
    case Undecided =>
  }
}
