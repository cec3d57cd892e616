/**
 When an admin's decision about a patch goes through and what it changes (src/balanceTriage.ts, src/balanceMerge.ts,
 src/balancePublic.ts, src/balanceRollouts.ts, src/releaseBalance.ts), said of the tables before and after.
 */
module TriageLaws {
  import opened Wrappers
  import opened Inventories
  import opened PointerForest
  import opened BalanceTables
  import opened BalanceFold
  import opened BalancePatches
  import opened BalanceTriage
  import opened BalanceMerge
  import opened BalancePublic
  import opened ReleaseBalance
  import opened SightingLaws
  import opened RowOrder
  import RefingerprintLaws

  /** The patch counts as a balance change. */
  predicate IsBalanceChange(t: Tables, id: PatchId) {
    id in t.patches && (t.patches[id].triage == Balance || t.patches[id].triage == Untriaged)
  }

  /** It may be folded into what `into` counts for: a detected patch of no active rollout, waiting or (unless only a
      waiting one may) a balance change, into a balance change that does not count by way of it. */
  ghost predicate MayFold(t: Tables, id: PatchId, into: PatchId, waitingOnly: bool) {
    && id in t.patches && t.patches[id].source == Detected && t.rollout != Some(id)
    && (t.patches[id].triage == Pending || (!waitingOnly && IsBalanceChange(t, id)))
    && into in t.patches && (forall n: nat :: Hop(FoldPointers(t.patches), into, n) != id)
    && IsBalanceChange(t, Effective(t.patches, into))
  }

  lemma MayFoldIs(t: Tables, id: PatchId, into: PatchId, waitingOnly: bool)
    ensures FoldTarget(t, id, into, waitingOnly).Ok? <==> MayFold(t, id, into, waitingOnly)
    ensures FoldTarget(t, id, into, waitingOnly).Ok? ==>
      FoldTarget(t, id, into, waitingOnly).value == Effective(t.patches, into)
  {
  }

  /** A folded row: its publish time is put aside. */
  function FoldedRow(p: Patch, into: PatchId): Patch {
    p.(triage := Folded, foldedInto := Some(into), publishedAt := None,
       publishedBeforeFold := if p.publishedAt.Some? then p.publishedAt else p.publishedBeforeFold)
  }

  /** A fold by an admin changes one row, exactly when it may be folded. */
  lemma FoldsExactlyWhen(t: Tables, id: PatchId, into: PatchId)
    requires Consistent(t)
    ensures !MayFold(t, id, into, false) ==> TriageFolded(t, id, into) == t
    ensures MayFold(t, id, into, false) ==>
      TriageFolded(t, id, into).patches == t.patches[id := FoldedRow(t.patches[id], Effective(t.patches, into))]
  {
    MayFoldIs(t, id, into, false);
    if MayFold(t, id, into, false) { TargetIsSound(t, id, into, false); }
  }

  // ---------- what an ignore compares ----------

  /** A difference the admin is shown: not a plugin ignored already, not the build of a versionless plugin, and not a
      watched key on one side only, unless a cvar came or went with it. */
  ghost predicate Shown(a: Inventory, b: Inventory, lists: Lists, k: Key) {
    && Counts(lists, k)
    && ((k in a && k in b && a[k] != b[k] && !(k.Plugin? && k.file in lists.versionless))
        || ((k in a) != (k in b)
            && (!Watched(k)
                || exists j, n :: InOneOnly(a, b, lists, j) && OfCvar(j, n) && OfCvar(k, n) && (j in a) != (k in a))))
  }

  /** The marker of a missing cvar, come or gone together with the cvar's own key. */
  ghost predicate ShownOnItsCvar(a: Inventory, b: Inventory, k: Key) {
    k.MissingCvar? && !(k in a && k in b && a[k] != b[k]) && (Cvar(k.name) in a || Cvar(k.name) in b)
  }

  lemma ShownAre(a: Inventory, b: Inventory, lists: Lists)
    ensures
      var x, y := WithoutIgnored(a, lists.ignored), WithoutIgnored(b, lists.ignored);
      forall k :: k in WordedKeys(x, y, lists.versionless) <==> Shown(a, b, lists, k)
  {
    var x, y := WithoutIgnored(a, lists.ignored), WithoutIgnored(b, lists.ignored);
    OneSidedKeys(a, b, lists);
    forall k ensures k in WordedKeys(x, y, lists.versionless) <==> Shown(a, b, lists, k) {
      CameAndWent(a, b, lists, k);
      hide CvarNames, Added, Removed, Changed, WithoutIgnored;
    }
  }

  lemma CameAndWent(a: Inventory, b: Inventory, lists: Lists, k: Key)
    ensures
      var x, y := WithoutIgnored(a, lists.ignored), WithoutIgnored(b, lists.ignored);
      var both := IsCvarKind(k) && k.name in CvarNames(Added(x, y)) && k.name in CvarNames(Removed(x, y));
      InOneOnly(a, b, lists, k) ==>
        (both <==> exists j, n ::
                     InOneOnly(a, b, lists, j) && OfCvar(j, n) && OfCvar(k, n) && (j in a) != (k in a))
  {
    var x, y := WithoutIgnored(a, lists.ignored), WithoutIgnored(b, lists.ignored);
    OneSidedKeys(a, b, lists);
    if InOneOnly(a, b, lists, k) && IsCvarKind(k) {
      NamesOf(Added(x, y), k.name);
      NamesOf(Removed(x, y), k.name);
      var other := if k in a then Added(x, y) else Removed(x, y);
      hide CvarNames, Added, Removed, WithoutIgnored;
      assert OfCvar(k, k.name);
      if j :| j in other && OfCvar(j, k.name) {
        assert InOneOnly(a, b, lists, j) && (j in a) != (k in a);
      }
    }
  }

  /** They differ in plugins, and in nothing else the admin is shown. */
  ghost predicate PluginsAlone(a: Inventory, b: Inventory, lists: Lists) {
    && (exists k :: Shown(a, b, lists, k) && k.Plugin?)
    && (forall k | Shown(a, b, lists, k) :: k.Plugin? || ShownOnItsCvar(a, b, k))
  }

  ghost predicate TheirFiles(a: Inventory, b: Inventory, lists: Lists, files: set<string>) {
    forall f :: f in files <==> exists k :: Shown(a, b, lists, k) && k.Plugin? && k.file == f
  }

  lemma PluginsAre(a: Inventory, b: Inventory, lists: Lists)
    ensures
      var x, y := WithoutIgnored(a, lists.ignored), WithoutIgnored(b, lists.ignored);
      && (OnlyPluginsDiffer(x, y, lists.versionless) <==> PluginsAlone(a, b, lists))
      && TheirFiles(a, b, lists, DifferingPlugins(x, y, lists.versionless))
  {
    var x, y := WithoutIgnored(a, lists.ignored), WithoutIgnored(b, lists.ignored);
    ShownAre(a, b, lists);
    forall k: Key | k.MissingCvar? ensures WordedOnItsCvar(x, y, k) <==> ShownOnItsCvar(a, b, k) {}
    hide WordedKeys, Shown, WithoutIgnored, WordedOnItsCvar, ShownOnItsCvar;
    var files := DifferingPlugins(x, y, lists.versionless);
    FilesAre(a, b, lists, WordedKeys(x, y, lists.versionless), files);
    PluginsAloneIs(a, b, lists, x, y, files);
  }

  lemma FilesAre(a: Inventory, b: Inventory, lists: Lists, keys: set<Key>, files: set<string>)
    requires files == set k | k in keys && k.Plugin? :: k.file
    requires forall k :: k in keys <==> Shown(a, b, lists, k)
    ensures TheirFiles(a, b, lists, files)
  {
    hide Shown;
    forall f ensures f in files <==> exists k :: Shown(a, b, lists, k) && k.Plugin? && k.file == f {
      if k :| Shown(a, b, lists, k) && k.Plugin? && k.file == f { assert k in keys; }
    }
  }

  lemma PluginsAloneIs(a: Inventory, b: Inventory, lists: Lists, x: Inventory, y: Inventory, files: set<string>)
    requires TheirFiles(a, b, lists, files) && files == DifferingPlugins(x, y, lists.versionless)
    requires forall k :: k in WordedKeys(x, y, lists.versionless) <==> Shown(a, b, lists, k)
    requires forall k: Key | k.MissingCvar? :: WordedOnItsCvar(x, y, k) <==> ShownOnItsCvar(a, b, k)
    ensures OnlyPluginsDiffer(x, y, lists.versionless) <==> PluginsAlone(a, b, lists)
  {
    hide Shown, WordedKeys, DifferingPlugins;
    assert files != {} <==> exists k :: Shown(a, b, lists, k) && k.Plugin? by {
      if k :| Shown(a, b, lists, k) && k.Plugin? { assert k.file in files; }
      if files != {} { var f :| f in files; }
    }
    forall k ensures WordedOnItsCvar(x, y, k) <==> ShownOnItsCvar(a, b, k) {
      assert !k.MissingCvar? ==> !WordedOnItsCvar(x, y, k) && !ShownOnItsCvar(a, b, k);
    }
  }

  // ---------- whose inputs stand for the target ----------

  predicate SeenBefore(t: Tables, x: PatchId, y: PatchId)
    requires x in t.patches && y in t.patches
  {
    t.patches[x].firstSeen < t.patches[y].firstSeen || (t.patches[x].firstSeen == t.patches[y].firstSeen && x < y)
  }

  /** An earlier patch with inputs, folded by way of others into `base`. */
  ghost predicate MayStandIn(t: Tables, id: PatchId, base: PatchId, x: PatchId)
    requires id in t.patches
  {
    && x in t.patches && x != id && t.patches[x].inputs.Some? && t.patches[x].triage == Folded
    && SeenBefore(t, x, id) && Effective(t.patches, x) == base
  }

  ghost predicate CameFromBase(t: Tables, id: PatchId, base: PatchId)
    requires id in t.patches
  {
    var from := t.patches[id].cameFrom;
    from.Some? && from.value != id && from.value in t.patches && t.patches[from.value].inputs.Some?
    && Effective(t.patches, from.value) == base
  }

  /** The base itself when it has inputs, else the patch this one came from, else the last that may stand in. */
  ghost predicate IsStandIn(t: Tables, id: PatchId, base: PatchId, s: Option<PatchId>)
    requires id in t.patches
  {
    if base in t.patches && t.patches[base].inputs.Some? then s == Some(base)
    else if CameFromBase(t, id, base) then s == t.patches[id].cameFrom
    else if s.None? then forall x :: !MayStandIn(t, id, base, x)
    else MayStandIn(t, id, base, s.value)
         && forall x | MayStandIn(t, id, base, x) && x != s.value :: SeenBefore(t, x, s.value)
  }

  lemma StandInsMay(t: Tables, id: PatchId, base: PatchId)
    requires id in t.patches
    ensures forall x :: x in StandIns(t, id, base) <==> MayStandIn(t, id, base, x)
    ensures StandIns(t, id, base) <= SeenAt(t.patches).Keys
  {
  }

  lemma LastIsLast(t: Tables, id: PatchId, base: PatchId)
    requires id in t.patches
    ensures
      var order := InOrder(SeenAt(t.patches), StandIns(t, id, base));
      && (order == [] ==> forall x :: !MayStandIn(t, id, base, x))
      && (order != [] ==>
            var last := order[|order| - 1];
            MayStandIn(t, id, base, last)
            && forall x | MayStandIn(t, id, base, x) && x != last :: SeenBefore(t, x, last))
  {
    hide MayStandIn, StandIns;
    StandInsMay(t, id, base);
    var order := InOrder(SeenAt(t.patches), StandIns(t, id, base));
    forall x ensures x in order <==> MayStandIn(t, id, base, x) {}
    if order != [] {
      var n := |order| - 1;
      assert order[n] in order;
      forall x | MayStandIn(t, id, base, x) && x != order[n] ensures Earlier(SeenAt(t.patches), x, order[n]) {
        var i :| 0 <= i < |order| && order[i] == x;
      }
    }
  }

  lemma StandInIs(t: Tables, id: PatchId, base: PatchId, s: Option<PatchId>)
    requires id in t.patches
    ensures IsStandIn(t, id, base, s) <==> s == StandIn(t, id, base)
  {
    hide StandIns, InOrder, Effective, SeenAt;
    LastIsLast(t, id, base);
    StandInsMay(t, id, base);
  }

  // ---------- an ignore ----------

  predicate HasReadable(t: Tables, id: Option<PatchId>) {
    && id.Some? && id.value in t.patches && t.patches[id.value].inputs.Some?
    && t.patches[id.value].inputs.value.Readable?
  }

  /** The admin may ignore exactly the plugins shown, when a waiting patch differs from the target, or what stands in
      for it, in plugins alone. */
  ghost predicate MayIgnore(t: Tables, id: PatchId, q: IgnoreRequest, standIn: Option<PatchId>) {
    && MayFold(t, id, q.into, true) && HasReadable(t, standIn) && HasReadable(t, Some(id))
    && var a, b := t.patches[standIn.value].inputs.value.inventory, t.patches[id].inputs.value.inventory;
       var lists := Lists(q.versionless, q.knobsIgnored + t.ignored);
       PluginsAlone(a, b, lists) && q.plugins.Some? && TheirFiles(a, b, lists, q.plugins.value)
  }

  lemma FilesAreOne(a: Inventory, b: Inventory, lists: Lists, f: set<string>, g: set<string>)
    requires TheirFiles(a, b, lists, f)
    ensures TheirFiles(a, b, lists, g) <==> f == g
  {
    hide Shown;
    if TheirFiles(a, b, lists, g) {
      forall x ensures x in f <==> x in g {}
    }
  }

  lemma IgnorableIff(t: Tables, id: PatchId, q: IgnoreRequest, standIn: Option<PatchId>)
    requires id in t.patches && IsStandIn(t, id, Effective(t.patches, q.into), standIn)
    ensures Ignorable(t, id, q).Ok? <==> MayIgnore(t, id, q, standIn)
    ensures Ignorable(t, id, q).Ok? ==> Ignorable(t, id, q).value == (Effective(t.patches, q.into), q.plugins.value)
  {
    hide FoldTarget, StandIn, IsStandIn, MayFold, OnlyPluginsDiffer, DifferingPlugins, PluginsAlone, TheirFiles;
    StandInIs(t, id, Effective(t.patches, q.into), standIn);
    MayFoldIs(t, id, q.into, true);
    if HasReadable(t, standIn) && HasReadable(t, Some(id)) {
      var a, b := t.patches[standIn.value].inputs.value.inventory, t.patches[id].inputs.value.inventory;
      var lists := Lists(q.versionless, q.knobsIgnored + t.ignored);
      PluginsAre(a, b, lists);
      var files := DifferingPlugins(WithoutIgnored(a, lists.ignored), WithoutIgnored(b, lists.ignored),
                                    lists.versionless);
      if q.plugins.Some? { FilesAreOne(a, b, lists, files, q.plugins.value); }
    }
  }

  /** It then lists those plugins; where it is refused, or two rows were to hold one fingerprint, nothing changes. */
  lemma IgnoreLists(t: Tables, id: PatchId, q: IgnoreRequest)
    requires Consistent(t)
    ensures !IgnoreSucceeds(t, id, q) ==> Ignored(t, id, q) == t
    ensures IgnoreSucceeds(t, id, q) ==>
      && q.plugins.Some? && Ignored(t, id, q).ignored == t.ignored + q.plugins.value
      && Ignored(t, id, q).patches.Keys == t.patches.Keys && Ignored(t, id, q).rollout == t.rollout
  {
    hide Refingerprinted, Rehashed, DistinctFingerprints, FoldTarget, StandIn, OnlyPluginsDiffer, DifferingPlugins;
    hide EndJoined, Consistent;
    if IgnoreSucceeds(t, id, q) {
      var (target, plugins) := Ignorable(t, id, q).value;
      ListedKeepsConsistent(t, plugins);
      RewrittenKeeps(Listed(t, plugins), q.ListsWith(t.ignored + plugins));
      EndJoinedKeeps(IgnoreRewritten(t, plugins, q), id, target);
    }
  }

  lemma EndJoinedKeeps(t: Tables, id: PatchId, target: PatchId)
    ensures EndJoined(t, id, target).ignored == t.ignored && EndJoined(t, id, target).rollout == t.rollout
    ensures EndJoined(t, id, target).patches.Keys == t.patches.Keys
  {
  }

  lemma RewrittenKeeps(t: Tables, lists: Lists)
    requires Consistent(t) && DistinctFingerprints(Rehashed(t, lists))
    ensures Refingerprinted(t, lists).ignored == t.ignored && Refingerprinted(t, lists).rollout == t.rollout
    ensures Refingerprinted(t, lists).patches.Keys == t.patches.Keys
  {
    hide Consistent, DistinctFingerprints, Refingerprinted, Rehashed, LeftoversFolded, MergeTables;
    RefingerprintKeepsIds(t, lists);
    var a, b, c := RefingerprintLaws.Stages(t, lists);
  }

  // ---------- the other decisions ----------

  /** A fold can be undone while the patch can hold a fingerprint of its own and is no active rollout's. */
  ghost predicate MayUnfold(t: Tables, id: PatchId) {
    && id in t.patches && t.patches[id].triage == Folded && t.rollout != Some(id)
    && !(t.patches[id].source == Detected && t.patches[id].fingerprint.None?)
  }

  /** Undone it waits again, or is in public as it was; what was folded into it directly counts on for its old end. */
  lemma UnfoldsExactlyWhen(t: Tables, id: PatchId)
    requires Consistent(t)
    ensures !MayUnfold(t, id) ==> TriageUnfolded(t, id) == t
    ensures MayUnfold(t, id) ==>
      var u, p := TriageUnfolded(t, id).patches, t.patches[id];
      && u.Keys == t.patches.Keys
      && u[id] == p.(foldedInto := None, publishedAt := p.publishedBeforeFold, publishedBeforeFold := None,
                     triage := if p.publishedBeforeFold.Some? then Balance else Pending)
      && forall x | x in t.patches && x != id ::
           u[x] == if t.patches[x].triage == Folded && t.patches[x].foldedInto == Some(id)
                   then t.patches[x].(foldedInto := Some(Effective(t.patches, id))) else t.patches[x]
  {
    if MayUnfold(t, id) {
      assert PublicationSound(t.patches[id]);
      RootStep(FoldPointers(t.patches), id);
      RootNotKey(FoldPointers(t.patches), id);
    }
  }

  /** Declared balance, a waiting patch carries the name and the notes it was given; nothing else changes. */
  lemma BalancesExactlyWhen(t: Tables, id: PatchId, name: string, notes: string)
    ensures
      var u := TriagedBalance(t, id, name, notes);
      if id in t.patches && t.patches[id].triage == Pending && 0 < |name| <= 60 && |notes| <= 20000 then
        && u == t.(patches := u.patches) && u.patches.Keys == t.patches.Keys
        && u.patches[id].triage == Balance && u.patches[id].name == name && u.patches[id].notes == notes
        && u.patches[id] == t.patches[id].(triage := Balance, name := name, notes := notes)
        && forall x | x in t.patches && x != id :: u.patches[x] == t.patches[x]
      else u == t
  {
  }

  /** Patches are merged into a stored, unfolded one when there is something stored to drop, the active rollout's
      patch aside, and with no match live when it is for real. */
  lemma MergesExactlyWhen(t: Tables, keep: PatchId, drop: seq<PatchId>, apply: bool, live: nat)
    requires Consistent(t)
    ensures MergeCheck(t, keep, drop, apply, live).Ok? <==>
      && drop != [] && keep !in drop && keep in t.patches && !IsFolded(t.patches[keep])
      && (forall id | id in drop :: id in t.patches && t.rollout != Some(id)) && (apply ==> live == 0)
    ensures !(apply && MergeCheck(t, keep, drop, apply, live).Ok?) ==> MergeResult(t, keep, drop, apply, live) == t
  {
    var m := FoldPointers(t.patches);
    if keep in t.patches && Effective(t.patches, keep) == keep {
      EndsAt(m, keep);
      RootNotKey(m, keep);
    }
    if keep !in m { RootOfEnd(m, keep); }
    if t.rollout.Some? && t.rollout.value in drop {
      var active := t.rollout.value;
      assert active in drop && t.rollout == Some(active);
    }
  }

  /** Only a named balance patch with notes and counted rounds is shown to the public, from the first time it is;
      taken back it keeps no publish time, not even one put aside. */
  lemma PublishesExactlyWhen(t: Tables, id: PatchId, published: bool, counted: nat, now: Time)
    ensures
      var u := PublishedAs(t, id, published, counted, now);
      if id !in t.patches then u == t
      else if !published then
        u == t.(patches := t.patches[id := t.patches[id].(publishedAt := None, publishedBeforeFold := None)])
      else if IsBalanceChange(t, id) && t.patches[id].name != "" && t.patches[id].notes != "" && counted > 0 then
        u == if t.patches[id].publishedAt.Some? then t
             else t.(patches := t.patches[id := t.patches[id].(publishedAt := Some(now))])
      else u == t
  {
    if id in t.patches && t.patches[id].publishedAt.Some? { assert t.patches[id := t.patches[id]] == t.patches; }
  }

  /** The preview still stands: nothing was applied since, and the draft has nothing against it. */
  predicate PreviewStands(a: Apply) {
    && (a.based.Some? ==> a.based.value == a.latest)
    && a.preview == Preview(false, true, false, false)
  }

  /** The predicted config as a patch of its own, known to nobody. */
  predicate IsAnnouncement(a: Apply, p: Patch) {
    p == Patch(Some(FingerprintOf(a.predicted, a.versionless)), Announced, a.name, a.notes,
               Some(Readable(a.predicted)), a.now, Balance, None, None, None, None)
  }

  /**
   An apply goes through on a preview that stands. A config known by its fingerprint, unless folded, keeps its patch,
   with the name and notes it has or else the ones given, and is a balance change from then on; a new one needs a
   name and notes and gets a patch. That patch is the rollout's.
   */
  lemma AppliesExactlyWhen(t: Tables, a: Apply, newId: PatchId, known: Option<PatchId>)
    requires Consistent(t)
    requires known.Some? ==> Holds(t.patches, known.value, FingerprintOf(a.predicted, a.versionless))
    requires known.None? ==> forall id :: !Holds(t.patches, id, FingerprintOf(a.predicted, a.versionless))
    ensures
      var u := BalancePublic.Applied(t, a, newId);
      var fits := PreviewStands(a) && |a.name| <= 60 && |a.notes| <= 20000;
      if fits && known.Some? && t.patches[known.value].triage != Folded
         && (t.patches[known.value].name != "" || a.name != "") then
        var p := t.patches[known.value];
        u == t.(rollout := known, patches := t.patches[known.value :=
          p.(name := if p.name == "" then a.name else p.name, notes := if p.notes == "" then a.notes else p.notes,
             triage := if p.triage == Pending then Balance else p.triage)])
      else if fits && known.None? && a.name != "" && a.notes != "" then
        && u == t.(rollout := Some(newId), patches := u.patches) && u.patches == t.patches[newId := u.patches[newId]]
        && IsAnnouncement(a, u.patches[newId])
      else u == t
  {
    if known.Some? { HolderIs(t.patches, known.value, FingerprintOf(a.predicted, a.versionless)); }
  }

  /** A release's decision changes a patch exactly when it waits for triage, the box was on another before, and there
      is a decision: then it is balance under the release's name and notes, or folded where the box was before. */
  lemma LinksExactlyWhen(t: Tables, id: PatchId, previous: Option<PatchId>, decision: Option<Decision>)
    requires Consistent(t) && (previous.Some? ==> previous.value in t.patches)
    ensures
      var u := Linked(t, id, previous, decision);
      if id !in t.patches || t.patches[id].triage != Pending || previous == Some(id) || decision.None? then u == t
      else match decision.value
      case IsBalance(name, notes) =>
        u == t.(patches := t.patches[id := t.patches[id].(triage := Balance, name := name, notes := notes)])
      case NotBalance =>
        if previous.None? || Effective(t.patches, previous.value) == id then u == t
        else u.patches == t.patches[id := FoldedRow(t.patches[id], Effective(t.patches, previous.value))]
      case Undecided => u == t
  {
    if decision == Some(NotBalance) && previous.Some? && id in t.patches && t.patches[id].triage == Pending {
      EndIsNotThrough(t, previous.value, id);
    }
  }

  lemma EndIsNotThrough(t: Tables, from: PatchId, id: PatchId)
    requires Consistent(t)
    ensures
      var end := Effective(t.patches, from);
      Effective(t.patches, end) == end && (end != id ==> CanFold(t.patches, id, end))
  {
    var m := FoldPointers(t.patches);
    EndsAt(m, from);
    RootNotKey(m, from);
    RootOfEnd(m, Root(m, from));
    PassesStep(m, Root(m, from), id);
  }
}
