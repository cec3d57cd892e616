/**
 Every interleaving of the writers of the balance tables: rounds that go live, are measured or are
 played again, sightings and the releases linked to them, triage, merges, the boot refingerprint and
 the ignore list, publishing, applies, edits and the patches from before fingerprints. What holds
 after any run of them, from an empty database on.
 */
module BalanceRuns {
  import opened Wrappers
  import opened Inventories
  import opened PointerForest
  import opened BalanceTables
  import opened BalanceFold
  import opened BalancePatches
  import opened RefingerprintLaws
  import opened Sightings
  import opened BalanceTriage
  import opened BalanceMerge
  import opened BalancePublic
  import opened ReleaseBalance
  import opened HistoricalPatches

  datatype Op =
    | NewRound(key: RoundKey)
    | Sight(sighting: Sighting, newId: PatchId)
    | SetBalance(id: PatchId, name: string, notes: string)
    | Fold(id: PatchId, into: PatchId)
    | Ignore(id: PatchId, request: IgnoreRequest)
    | Unfold(id: PatchId)
    | Merge(keep: PatchId, drop: seq<PatchId>, apply: bool, live: nat)
    | Boot(lists: Lists)
    | Unignore(file: string, lists: Lists)
    | Publish(id: PatchId, published: bool, counted: nat, now: Time)
    | Apply(apply_: BalancePublic.Apply, newId: PatchId)
    | LinkRelease(id: PatchId, previous: Option<PatchId>, decision: Option<Decision>)
    | ApplyPasts(starts: Starts, pasts: seq<Past>, ids: seq<PatchId>)
    | Edit(id: PatchId, newName: Option<string>, newNotes: Option<string>)
    | Measure(key: RoundKey)
    | DropMaps(matchId: nat, from: nat)

  /** removeIgnored, and a refingerprint under the shorter list, in one
      transaction. */
  ghost function Unignored(t: Tables, file: string, lists: Lists): Tables {
    var u := t.(ignored := t.ignored - {file});
    if file in t.ignored && DistinctFingerprints(Rehashed(u, lists)) then Refingerprinted(u, lists) else t
  }

  /**
   An id in use is never handed out again, so such an insert is no step; nor is a link to a previous
   patch that is not stored, since the one a sighting names is.
   */
  ghost function Step(t: Tables, op: Op): Tables {
    match op
    case NewRound(k) => if k in t.rounds then t else t.(rounds := t.rounds[k := Round(None, None)])
    case Sight(s, newId) => if newId in t.patches then t else Sighted(t, s, newId)
    case SetBalance(id, name, notes) => TriagedBalance(t, id, name, notes)
    case Fold(id, into) => TriageFolded(t, id, into)
    case Ignore(id, q) => Ignored(t, id, q)
    case Unfold(id) => TriageUnfolded(t, id)
    case Merge(keep, drop, apply, live) => MergeResult(t, keep, drop, apply, live)
    case Boot(lists) => RefingerprintResult(t, lists)
    case Unignore(file, lists) => Unignored(t, file, lists)
    case Publish(id, published, counted, now) => PublishedAs(t, id, published, counted, now)
    case Apply(a, newId) => if newId in t.patches then t else Applied(t, a, newId)
    case LinkRelease(id, previous, decision) =>
      if previous.Some? && previous.value !in t.patches then t else Linked(t, id, previous, decision)
    case ApplyPasts(starts, pasts, ids) =>
      if |pasts| == |ids| && NewIds(t.patches, ids) then HistoricalApplied(t, starts, pasts, ids) else t
    case Edit(id, name, notes) => if id in t.patches then Edited(t, id, name, notes) else t
    case Measure(k) => t.(contexts := t.contexts[k := if k in t.rounds then t.rounds[k].patch else None])
    case DropMaps(matchId, from) =>
      t.(rounds := map k | k in t.rounds && !(k.matchId == matchId && k.ordinal >= from) :: t.rounds[k])
  }

  /** editPatch. */
  function Edited(t: Tables, id: PatchId, name: Option<string>, notes: Option<string>): Tables
    requires id in t.patches
  {
    var p := t.patches[id];
    t.(patches := t.patches[id := p.(name := name.GetOr(p.name), notes := notes.GetOr(p.notes))])
  }

  ghost function Run(t: Tables, ops: seq<Op>): Tables {
    if ops == [] then t else Step(Run(t, ops[..|ops| - 1]), ops[|ops| - 1])
  }

  predicate MovesNoFold(op: Op) {
    op.NewRound? || op.SetBalance? || op.Edit? || op.Measure? || op.DropMaps?
  }

  lemma PlainStepKeepsConsistent(t: Tables, op: Op)
    requires Consistent(t) && MovesNoFold(op)
    ensures Consistent(Step(t, op))
  {
    hide FoldPointers, Acyclic, DistinctFingerprints, PublicationSound, Effective;
    match op
    case SetBalance(id, name, notes) =>
      if BalanceCheck(t.patches, id, name, notes).Ok? {
        BalanceIsSound(t, id, name, notes);
        EditKeepsConsistent(t, id, t.patches[id].(triage := Balance, name := name, notes := notes));
      }
    case Edit(id, name, notes) =>
      if id in t.patches {
        EditIsSound(t, id, name, notes);
        EditKeepsConsistent(t, id, Edited(t, id, name, notes).patches[id]);
      }
    case _ =>
  }

  lemma BalanceIsSound(t: Tables, id: PatchId, name: string, notes: string)
    requires Consistent(t) && BalanceCheck(t.patches, id, name, notes).Ok?
    ensures id in t.patches && PublicationSound(t.patches[id].(triage := Balance, name := name, notes := notes))
  {
  }

  lemma EditIsSound(t: Tables, id: PatchId, name: Option<string>, notes: Option<string>)
    requires Consistent(t) && id in t.patches
    ensures PublicationSound(Edited(t, id, name, notes).patches[id])
  {
  }

  lemma StepKeepsConsistent(t: Tables, op: Op)
    requires Consistent(t)
    ensures Consistent(Step(t, op))
  {
    hide Consistent, Sighted, FoldTarget, UnfoldCheck, MergeCheck, Linked, HistoricalApplied, NewIds, Edited;
    hide TriagedBalance, PublishedAs, Applied, AllDropped, Rehashed, Refingerprinted, DistinctFingerprints;
    if MovesNoFold(op) {
      PlainStepKeepsConsistent(t, op);
      return;
    }
    match op
    case Sight(s, newId) => if newId !in t.patches { SightingKeepsConsistent(t, s, newId); }
    case Fold(id, into) =>
      if FoldTarget(t, id, into, false).Ok? { TriageFoldReroutes(t, id, into); }
    case Ignore(id, q) => IgnoreKeepsConsistent(t, id, q);
    case Unfold(id) => if UnfoldCheck(t, id).Ok? { UnfoldKeepsStored(t, id); }
    case Merge(keep, drop, apply, live) =>
      if MergeCheck(t, keep, drop, apply, live).Ok? {
        MergeableAfterCheck(t, keep, drop, apply, live);
        DropsCountForKept(t, keep, drop);
      }
    case Boot(lists) => RefingerprintKeepsConsistent(t, lists);
    case Unignore(file, lists) =>
      IgnoredKeepsConsistent(t, t.ignored - {file});
      RefingerprintKeepsConsistent(t.(ignored := t.ignored - {file}), lists);
    case Publish(id, published, counted, now) => PublishKeepsConsistent(t, id, published, counted, now);
    case Apply(a, newId) => if newId !in t.patches { ApplyKeepsConsistent(t, a, newId); }
    case LinkRelease(id, previous, decision) =>
      if previous.Some? ==> previous.value in t.patches { LinkKeepsConsistent(t, id, previous, decision); }
    case ApplyPasts(starts, pasts, ids) =>
      if |pasts| == |ids| && NewIds(t.patches, ids) { HistoricalKeepsConsistent(t, starts, pasts, ids); }
    case _ =>
  }

  lemma UnfoldKeepsStored(t: Tables, id: PatchId)
    requires Consistent(t) && UnfoldCheck(t, id).Ok?
    ensures Consistent(Unfolded(t, id))
  {
    UnfoldKeepsConsistent(t, id);
  }

  /** Over any run: no fold loop, no fingerprint held twice, no round that counts
      for anything but what its sighted patch resolves to, and no published
      patch that is not a balance patch. */
  lemma {:induction false} RunsStayConsistent(t: Tables, ops: seq<Op>)
    requires Consistent(t)
    ensures Consistent(Run(t, ops))
    decreases |ops|
  {
    if ops != [] {
      RunsStayConsistent(t, ops[..|ops| - 1]);
      StepKeepsConsistent(Run(t, ops[..|ops| - 1]), ops[|ops| - 1]);
    }
  }

  // ---------- a publish time put aside by a fold ----------

  /** Folded, with the publish time `at` put aside. */
  ghost predicate Hidden(t: Tables, id: PatchId, at: Time) {
    id in t.patches && IsFolded(t.patches[id]) && t.patches[id].publishedBeforeFold == Some(at)
  }

  predicate Reveals(op: Op, id: PatchId) {
    op == Unfold(id) || (op.Publish? && op.id == id && !op.published)
  }

  /** Nothing in a refingerprint touches what is put aside. */
  ghost predicate KeepsHidden(t: Tables, u: Tables) {
    forall id, at :: Hidden(t, id, at) ==> Hidden(u, id, at)
  }

  lemma FoldKeepsHidden(t: Tables, id: PatchId, into: PatchId)
    requires Consistent(t)
    ensures KeepsHidden(t, FoldedInto(t, id, into))
  {
  }

  lemma {:induction false} PairsKeepHidden(t: Tables, pairs: seq<(PatchId, PatchId)>)
    requires Consistent(t) && forall p | p in pairs :: p.0 in t.patches && p.1 in t.patches
    ensures KeepsHidden(t, MergedPairs(t, pairs))
    decreases |pairs|
  {
    if pairs != [] {
      var p, before := pairs[|pairs| - 1], pairs[..|pairs| - 1];
      PairsKeepHidden(t, before);
      MergedPairsFoldOnly(t, before);
      FoldKeepsHidden(MergedPairs(t, before), p.1, p.0);
    }
  }

  lemma {:induction false} LeftoversKeepHidden(t: Tables, lists: Lists, ids: seq<PatchId>)
    requires Consistent(t)
    ensures KeepsHidden(t, LeftoversFolded(t, lists, ids))
    decreases |ids|
  {
    if ids != [] {
      var u := LeftoversFolded(t, lists, ids[..|ids| - 1]);
      LeftoversKeepHidden(t, lists, ids[..|ids| - 1]);
      LeftoversFoldOnly(t, lists, ids[..|ids| - 1]);
      var id := ids[|ids| - 1];
      var fp := HashOf(u.patches, id, lists);
      if fp.Some? && Holder(u.patches, fp.value).Some? { FoldKeepsHidden(u, id, Holder(u.patches, fp.value).value); }
    }
  }

  lemma RefingerprintKeepsHidden(t: Tables, lists: Lists)
    requires Consistent(t) && DistinctFingerprints(Rehashed(t, lists))
    ensures KeepsHidden(t, Refingerprinted(t, lists))
  {
    hide Consistent, DistinctFingerprints, Rehashed, MergedPairs, MergesOf, LeftoversFolded, FoldsOnly;
    hide Refingerprinted, KeepsHidden;
    var a, b, c := Stages(t, lists);
    MergesAreStored(t, lists);
    RehashKeepsHidden(t, lists);
    PairsKeepHidden(a, AllPairs(MergesOf(t, lists)));
    LeftoversKeepHidden(b, lists, Leftovers(b.patches));
    TriagedKeepsHidden(c);
    HiddenOverall(t, a, b, c, Refingerprinted(t, lists));
  }

  lemma RehashKeepsHidden(t: Tables, lists: Lists)
    ensures KeepsHidden(t, t.(patches := Rehashed(t, lists)))
  {
    hide Want;
  }

  lemma TriagedKeepsHidden(t: Tables)
    ensures KeepsHidden(t, t.(patches := AllTriaged(t.patches)))
  {
    forall id | id in t.patches ensures AllTriaged(t.patches)[id] == Triaged(t.patches[id]) {
    }
  }

  lemma HiddenOverall(t: Tables, a: Tables, b: Tables, c: Tables, u: Tables)
    requires KeepsHidden(t, a) && KeepsHidden(a, b) && KeepsHidden(b, c) && KeepsHidden(c, u)
    ensures KeepsHidden(t, u)
  {
  }

  lemma {:induction false} DropsKeepHidden(t: Tables, keep: PatchId, drop: seq<PatchId>)
    requires Consistent(t) && Mergeable(t, keep, drop)
    ensures KeepsHidden(t, AllDropped(t, keep, drop))
    decreases |drop|
  {
    if drop != [] {
      DropsKeepHidden(t, keep, drop[..|drop| - 1]);
      DropsCountForKept(t, keep, drop[..|drop| - 1]);
      FoldKeepsHidden(AllDropped(t, keep, drop[..|drop| - 1]), drop[|drop| - 1], keep);
    }
  }

  lemma SightKeepsHidden(t: Tables, s: Sighting, newId: PatchId)
    requires Consistent(t) && newId !in t.patches
    ensures KeepsHidden(t, Sighted(t, s, newId))
  {
    if Holder(t.patches, s.Fp()).None? {
      NewPatchMovesNoOther(t, s, newId);
    }
  }

  lemma IgnoreKeepsHidden(t: Tables, id: PatchId, q: IgnoreRequest)
    requires Consistent(t)
    ensures KeepsHidden(t, Ignored(t, id, q))
  {
    hide Consistent, Ignorable, Refingerprinted, Rehashed, DistinctFingerprints, FoldedInto, Effective;
    if IgnoreSucceeds(t, id, q) {
      var target, plugins := Ignorable(t, id, q).value.0, Ignorable(t, id, q).value.1;
      var w := IgnoreRewritten(t, plugins, q);
      ListedKeepsConsistent(t, plugins);
      RefingerprintKeepsHidden(Listed(t, plugins), q.ListsWith(t.ignored + plugins));
      RewrittenIsConsistent(t, plugins, q);
      FoldKeepsHidden(w, Effective(w.patches, id), target);
    }
  }

  lemma IgnoredKeepsConsistent(t: Tables, ignored: set<string>)
    requires Consistent(t)
    ensures Consistent(t.(ignored := ignored))
  {
    hide FoldPointers, DistinctFingerprints, PublicationSound;
  }

  predicate EditsOne(op: Op) {
    op.SetBalance? || op.Unfold? || op.Publish? || op.Apply? || op.Edit?
  }

  lemma EditKeepsHidden(t: Tables, op: Op, id: PatchId, at: Time)
    requires Consistent(t) && Hidden(t, id, at) && !Reveals(op, id) && EditsOne(op)
    ensures Hidden(Step(t, op), id, at)
  {
    hide Consistent;
  }

  lemma StepKeepsHidden(t: Tables, op: Op, id: PatchId, at: Time)
    requires Consistent(t) && Hidden(t, id, at) && !Reveals(op, id)
    ensures Hidden(Step(t, op), id, at)
  {
    hide Consistent, Rehashed, Refingerprinted, AllDropped, MergeCheck, FoldedInto, HistoricalApplied, Ignored;
    hide TriagedBalance, TriageUnfolded, PublishedAs, Applied, Edited, Sighted, BalanceCheck, Ignorable;
    if EditsOne(op) {
      EditKeepsHidden(t, op, id, at);
      return;
    }
    match op
    case Sight(s, newId) => if newId !in t.patches { SightKeepsHidden(t, s, newId); }
    case Fold(x, into) =>
      if FoldTarget(t, x, into, false).Ok? {
        FoldKeepsHidden(t, x, FoldTarget(t, x, into, false).value);
      }
    case Ignore(x, q) => IgnoreKeepsHidden(t, x, q);
    case Merge(keep, drop, apply, live) =>
      if MergeCheck(t, keep, drop, apply, live).Ok? {
        MergeableAfterCheck(t, keep, drop, apply, live);
        DropsKeepHidden(t, keep, drop);
      }
    case Boot(lists) => if DistinctFingerprints(Rehashed(t, lists)) { RefingerprintKeepsHidden(t, lists); }
    case Unignore(file, lists) =>
      var u := t.(ignored := t.ignored - {file});
      IgnoredKeepsConsistent(t, u.ignored);
      if DistinctFingerprints(Rehashed(u, lists)) { RefingerprintKeepsHidden(u, lists); }
    case LinkRelease(x, previous, decision) =>
      if previous.Some? { FoldKeepsHidden(t, x, Effective(t.patches, previous.value)); }
    case ApplyPasts(starts, pasts, ids) =>
      if |pasts| == |ids| && NewIds(t.patches, ids) { HistoricalKeepsConsistent(t, starts, pasts, ids); }
    case _ =>
  }

  /** Folding a published patch takes it off the public page and puts its time
      aside. */
  lemma FoldHides(t: Tables, id: PatchId, into: PatchId, at: Time)
    requires Consistent(t) && id in t.patches && t.patches[id].publishedAt == Some(at) && CanFold(t.patches, id, into)
    ensures Hidden(FoldedInto(t, id, into), id, at) && FoldedInto(t, id, into).patches[id].publishedAt == None
  {
  }

  /** The time put aside survives any run of refolds, triage decisions, merges
      and refingerprints that neither unfolds nor unpublishes the patch. */
  lemma {:induction false} HiddenTimeSurvives(t: Tables, ops: seq<Op>, id: PatchId, at: Time)
    requires Consistent(t) && Hidden(t, id, at)
    requires forall op | op in ops :: !Reveals(op, id)
    ensures Consistent(Run(t, ops)) && Hidden(Run(t, ops), id, at)
    decreases |ops|
  {
    RunsStayConsistent(t, ops);
    if ops != [] {
      HiddenTimeSurvives(t, ops[..|ops| - 1], id, at);
      StepKeepsHidden(Run(t, ops[..|ops| - 1]), ops[|ops| - 1], id, at);
    }
  }

  /** Then an unfold publishes the patch at that very time, as a balance patch,
      unless it was unpublished while folded. */
  lemma UnfoldBringsBack(t: Tables, ops: seq<Op>, id: PatchId, at: Time, counted: nat, now: Time)
    requires Consistent(t) && Hidden(t, id, at)
    requires forall op | op in ops :: !Reveals(op, id)
    requires UnfoldCheck(Run(t, ops), id).Ok?
    ensures
      var p := Step(Run(t, ops), Unfold(id)).patches[id];
      p.publishedAt == Some(at) && p.triage == Balance
    ensures
      var unpublished := Step(Run(t, ops), Publish(id, false, counted, now));
      var p := Step(unpublished, Unfold(id)).patches[id];
      p.publishedAt == None && p.triage == Pending
  {
    HiddenTimeSurvives(t, ops, id, at);
  }

  /** The empty database is where every run starts. */
  lemma EmptyIsConsistent()
    ensures Consistent(Tables(map[], map[], map[], map[], {}, None, 0))
  {
    var ps: Patches := map[];
    assert FoldPointers(ps) == map[];
    forall x: PatchId ensures Ends(FoldPointers(ps), x) { RootOfEnd(FoldPointers(ps), x); }
  }

  /** Unfolding after any run gives the patch back its own rounds and leaves
      every other patch, those folded into it included, where they counted. */
  lemma UnfoldReturnsOwn(t: Tables, id: PatchId, k: RoundKey)
    requires Consistent(t) && UnfoldCheck(t, id).Ok? && k in t.rounds && t.rounds[k].sighted.Some?
    ensures
      var u := Step(t, Unfold(id));
      && k in u.rounds && u.rounds[k].sighted == t.rounds[k].sighted
      && u.rounds[k].patch == if t.rounds[k].sighted == Some(id) then Some(id) else t.rounds[k].patch
  {
    UnfoldMovesOne(t, id);
    RetagDerives(t.(patches := UnfoldedPatches(t.patches, id)));
    hide Effective, Acyclic;
  }

  lemma UnfoldReturnsRounds(ops: seq<Op>, id: PatchId, k: RoundKey)
    requires UnfoldCheck(Run(Tables(map[], map[], map[], map[], {}, None, 0), ops), id).Ok?
    ensures
      var t := Run(Tables(map[], map[], map[], map[], {}, None, 0), ops);
      var u := Step(t, Unfold(id));
      k in t.rounds && t.rounds[k].sighted.Some? ==>
        && k in u.rounds && u.rounds[k].sighted == t.rounds[k].sighted
        && u.rounds[k].patch == if t.rounds[k].sighted == Some(id) then Some(id) else t.rounds[k].patch
  {
    hide *;
    EmptyIsConsistent();
    RunsStayConsistent(Tables(map[], map[], map[], map[], {}, None, 0), ops);
    var t := Run(Tables(map[], map[], map[], map[], {}, None, 0), ops);
    if k in t.rounds && t.rounds[k].sighted.Some? { UnfoldReturnsOwn(t, id, k); }
  }
}
