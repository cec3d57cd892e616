/**
 Patch triage (src/balanceTriage.ts): is a new config a balance patch, a fold,
 or a plugin to ignore from now on?
 */
module BalanceTriage {
  import opened Wrappers
  import opened Seqs
  import opened Inventories
  import opened PointerForest
  import opened BalanceTables
  import opened BalanceFold
  import opened BalancePatches
  import opened RefingerprintLaws
  import opened Refingerprint
  import opened RowOrder

  datatype TriageError =
    | NoSuchPatch | NotDetected | WrongState | ActiveRollout | NoTarget | Loop | TargetNotBalance
    | NoName | NameTooLong | NotesTooLong | NoInputs | NotOnlyPlugins | PluginsDiffer | NotFolded | Merged | Violation

  const NAME_MAX: nat := 60
  const NOTES_MAX: nat := 20000

  // ---------- fold ----------

  /** Checks shared by fold and ignore, in order; the resolved target. */
  ghost function FoldTarget(t: Tables, id: PatchId, into: PatchId, pendingOnly: bool): Result<PatchId, TriageError> {
    if id !in t.patches then Err(NoSuchPatch)
    else if t.patches[id].source != Detected then Err(NotDetected)
    else if !(t.patches[id].triage == Pending || (!pendingOnly && CountsAsBalance(t.patches[id]))) then Err(WrongState)
    else if t.rollout == Some(id) then Err(ActiveRollout)
    else if into !in t.patches then Err(NoTarget)
    else if Passes(FoldPointers(t.patches), into, id) then Err(Loop)
    else
      var target := Effective(t.patches, into);
      if target in t.patches && CountsAsBalance(t.patches[target]) then Ok(target) else Err(TargetNotBalance)
  }

  ghost function TriageFolded(t: Tables, id: PatchId, into: PatchId): Tables {
    match FoldTarget(t, id, into, false)
    case Ok(target) => FoldedInto(t, id, target)
    case Err(_) => t
  }

  /** A target the checks let through is a stored balance patch, not folded,
      and no chain of its own leads back. */
  lemma TargetIsSound(t: Tables, id: PatchId, into: PatchId, pendingOnly: bool)
    requires Consistent(t) && FoldTarget(t, id, into, pendingOnly).Ok?
    ensures
      var target := FoldTarget(t, id, into, pendingOnly).value;
      && id in t.patches && target in t.patches && CountsAsBalance(t.patches[target])
      && Effective(t.patches, target) == target == Effective(t.patches, into) && CanFold(t.patches, id, target)
  {
    var m := FoldPointers(t.patches);
    var target := FoldTarget(t, id, into, pendingOnly).value;
    EndsAt(m, into);
    RootNotKey(m, into);
    RootOfEnd(m, target);
    PassesStep(m, target, id);
    var n: nat :| Hop(m, into, n) !in m && target == Hop(m, into, n);
  }

  /** A triage fold makes the patch and all that is folded into it count for
      the target, which is a balance patch, and moves nothing else. */
  lemma TriageFoldReroutes(t: Tables, id: PatchId, into: PatchId)
    requires Consistent(t) && FoldTarget(t, id, into, false).Ok?
    ensures
      var u, target := TriageFolded(t, id, into), FoldTarget(t, id, into, false).value;
      && Consistent(u) && IsFolded(u.patches[id]) && u.patches[target] == t.patches[target]
      && forall x :: Effective(u.patches, x) ==
                     if Passes(FoldPointers(t.patches), x, id) then target else Effective(t.patches, x)
  {
    var target := FoldTarget(t, id, into, false).value;
    TargetIsSound(t, id, into, false);
    FoldKeepsConsistent(t, id, target);
    FoldReroutes(t, id, target);
  }

  // ---------- whose inputs stand for the target ----------

  /** Earlier patches folded into `base` that have inputs. */
  ghost function StandIns(t: Tables, id: PatchId, base: PatchId): set<PatchId> {
    set p | p in t.patches && t.patches[p].inputs.Some? && t.patches[p].triage == Folded && p != id
            && Earlier(SeenAt(t.patches), p, id) && Effective(t.patches, p) == base
  }

  ghost function StandIn(t: Tables, id: PatchId, base: PatchId): Option<PatchId>
    requires id in t.patches
  {
    var from := t.patches[id].cameFrom;
    if InputsAt(t, base).Some? then Some(base)
    else if from.Some? && from.value != id && InputsAt(t, from.value).Some? && Effective(t.patches, from.value) == base
    then from
    else
      var order := InOrder(SeenAt(t.patches), StandIns(t, id, base));
      if order == [] then None else Some(order[|order| - 1])
  }

  function InputsAt(t: Tables, id: PatchId): Option<Stored> {
    if id in t.patches then t.patches[id].inputs else None
  }

  function ReadStored(inputs: Option<Stored>, ignored: set<string>): Option<Inventory> {
    match inputs
    case Some(Readable(inv)) => Some(WithoutIgnored(inv, ignored))
    case _ => None
  }

  // ---------- ignore ----------

  datatype IgnoreRequest = IgnoreRequest(
    into: PatchId,
    /** None unless the request names plugin files. */
    plugins: Option<set<string>>,
    versionless: set<string>,
    knobsIgnored: set<string>)
  {
    function ListsWith(site: set<string>): Lists {
      Lists(versionless, knobsIgnored + site)
    }
  }

  /** The plugins the request may ignore, or why it is refused. */
  ghost function Ignorable(t: Tables, id: PatchId, q: IgnoreRequest): Result<(PatchId, set<string>), TriageError> {
    match FoldTarget(t, id, q.into, true)
    case Err(e) => Err(e)
    case Ok(target) =>
      var ignored := q.ListsWith(t.ignored).ignored;
      var standIn := StandIn(t, id, target);
      var mine := ReadStored(InputsAt(t, id), ignored);
      var theirs := if standIn.None? then None else ReadStored(InputsAt(t, standIn.value), ignored);
      if mine.None? || theirs.None? then Err(NoInputs)
      else if !OnlyPluginsDiffer(theirs.value, mine.value, q.versionless) then Err(NotOnlyPlugins)
      else if q.plugins != Some(DifferingPlugins(theirs.value, mine.value, q.versionless)) then Err(PluginsDiffer)
      else Ok((target, DifferingPlugins(theirs.value, mine.value, q.versionless)))
  }

  /** The chain end that new sightings land on joins the target too, when it
      still waits for triage. */
  ghost function EndJoined(t: Tables, id: PatchId, target: PatchId): Tables {
    var end := Effective(t.patches, id);
    if end != Effective(t.patches, target) && end in t.patches && t.patches[end].triage == Pending
    then FoldedInto(t, end, target)
    else t
  }

  ghost function Listed(t: Tables, plugins: set<string>): Tables {
    t.(ignored := t.ignored + plugins)
  }

  /** The refingerprint under the longer list may throw, and then nothing is kept. */
  ghost predicate IgnoreSucceeds(t: Tables, id: PatchId, q: IgnoreRequest) {
    var r := Ignorable(t, id, q);
    r.Ok? && DistinctFingerprints(Rehashed(Listed(t, r.value.1), q.ListsWith(t.ignored + r.value.1)))
  }

  ghost function Ignored(t: Tables, id: PatchId, q: IgnoreRequest): Tables {
    if IgnoreSucceeds(t, id, q) then
      var (target, plugins) := Ignorable(t, id, q).value;
      EndJoined(IgnoreRewritten(t, plugins, q), id, target)
    else t
  }

  /** Joining the chain end to the target always succeeds. */
  lemma EndJoinsTarget(t: Tables, id: PatchId, target: PatchId)
    requires Consistent(t) && id in t.patches && target in t.patches
    ensures
      var u := EndJoined(t, id, target);
      && Consistent(u)
      && (Effective(u.patches, id) == Effective(u.patches, target)
          || (Effective(u.patches, id) in u.patches && u.patches[Effective(u.patches, id)].triage != Pending))
  {
    var m := FoldPointers(t.patches);
    var end := Effective(t.patches, id);
    EffectiveStored(t, id);
    if end != Effective(t.patches, target) && t.patches[end].triage == Pending {
      RootOfEnd(m, end);
      EndsAt(m, target);
      if Passes(m, target, end) { PassesSameRoot(m, target, end); }
      RootOfEnd(m, end);
      FoldKeepsConsistent(t, end, target);
      FoldReroutes(t, end, target);
      PassesEnd(m, id);
      if Passes(m, target, end) { PassesSameRoot(m, target, end); }
    }
  }

  lemma PassesEnd(m: Pointers<PatchId>, x: PatchId)
    requires Acyclic(m)
    ensures Passes(m, x, Root(m, x))
  {
    EndsAt(m, x);
    var n: nat :| Hop(m, x, n) !in m && Root(m, x) == Hop(m, x, n);
  }

  lemma RefingerprintKeepsIds(t: Tables, lists: Lists)
    requires Consistent(t) && DistinctFingerprints(Rehashed(t, lists))
    ensures Consistent(Refingerprinted(t, lists)) && Refingerprinted(t, lists).patches.Keys == t.patches.Keys
  {
    RefingerprintKeepsConsistent(t, lists);
  }

  /** The tables between an ignore's refingerprint and its last fold. */
  ghost function IgnoreRewritten(t: Tables, plugins: set<string>, q: IgnoreRequest): Tables {
    Refingerprinted(Listed(t, plugins), q.ListsWith(t.ignored + plugins))
  }

  lemma RewrittenIsConsistent(t: Tables, plugins: set<string>, q: IgnoreRequest)
    requires Consistent(t) && DistinctFingerprints(Rehashed(Listed(t, plugins), q.ListsWith(t.ignored + plugins)))
    ensures Consistent(IgnoreRewritten(t, plugins, q)) && IgnoreRewritten(t, plugins, q).patches.Keys == t.patches.Keys
  {
    ListedKeepsConsistent(t, plugins);
    RefingerprintKeepsIds(Listed(t, plugins), q.ListsWith(t.ignored + plugins));
  }

  lemma IgnorableTarget(t: Tables, id: PatchId, q: IgnoreRequest)
    requires Consistent(t) && Ignorable(t, id, q).Ok?
    ensures id in t.patches && Ignorable(t, id, q).value.0 in t.patches
    ensures FoldTarget(t, id, q.into, true) == Ok(Ignorable(t, id, q).value.0)
  {
    TargetIsSound(t, id, q.into, true);
  }

  /** After an ignore the triaged patch waits for nobody: it counts for what the
      target counts for, or for a patch that is not pending. */
  lemma IgnoreSettles(t: Tables, id: PatchId, q: IgnoreRequest)
    requires Consistent(t) && IgnoreSucceeds(t, id, q)
    ensures
      var u, end := Ignored(t, id, q), Effective(Ignored(t, id, q).patches, id);
      && Consistent(u)
      && (end == Effective(u.patches, Ignorable(t, id, q).value.0)
          || (end in u.patches && u.patches[end].triage != Pending))
  {
    var target, plugins := Ignorable(t, id, q).value.0, Ignorable(t, id, q).value.1;
    IgnorableTarget(t, id, q);
    RewrittenIsConsistent(t, plugins, q);
    EndJoinsTarget(IgnoreRewritten(t, plugins, q), id, target);
  }

  lemma ListedKeepsConsistent(t: Tables, plugins: set<string>)
    requires Consistent(t)
    ensures Consistent(Listed(t, plugins))
  {
  }

  lemma IgnoreKeepsConsistent(t: Tables, id: PatchId, q: IgnoreRequest)
    requires Consistent(t)
    ensures Consistent(Ignored(t, id, q))
  {
    if IgnoreSucceeds(t, id, q) { IgnoreSettles(t, id, q); }
  }

  // ---------- unfold and balance ----------

  ghost function UnfoldCheck(t: Tables, id: PatchId): Result<(), TriageError> {
    if id !in t.patches then Err(NoSuchPatch)
    else if t.patches[id].triage != Folded then Err(NotFolded)
    else if t.patches[id].source == Detected && t.patches[id].fingerprint.None? then Err(Merged)
    else if t.rollout == Some(id) then Err(ActiveRollout)
    else Ok(())
  }

  ghost function TriageUnfolded(t: Tables, id: PatchId): Tables {
    if UnfoldCheck(t, id).Ok? then Unfolded(t, id) else t
  }

  function BalanceCheck(ps: Patches, id: PatchId, name: string, notes: string): Result<(), TriageError> {
    if id !in ps then Err(NoSuchPatch)
    else if ps[id].triage != Pending then Err(WrongState)
    else if name == "" then Err(NoName)
    else if |name| > NAME_MAX then Err(NameTooLong)
    else if |notes| > NOTES_MAX then Err(NotesTooLong)
    else Ok(())
  }

  function TriagedBalance(t: Tables, id: PatchId, name: string, notes: string): Tables {
    if BalanceCheck(t.patches, id, name, notes).Ok? then
      t.(patches := t.patches[id := t.patches[id].(triage := Balance, name := name, notes := notes)])
    else t
  }

  /** Rewriting the triage, name, notes or publish time of a patch that is not
      folded moves no patch. */
  lemma EditKeepsConsistent(t: Tables, id: PatchId, p: Patch)
    requires Consistent(t) && id in t.patches && PublicationSound(p)
    requires p.foldedInto == t.patches[id].foldedInto && p.fingerprint == t.patches[id].fingerprint
    ensures Consistent(t.(patches := t.patches[id := p]))
    ensures FoldPointers(t.patches[id := p]) == FoldPointers(t.patches)
  {
    var ps := t.patches[id := p];
    assert FoldPointers(ps) == FoldPointers(t.patches);
    assert forall x, f :: Holds(ps, x, f) <==> Holds(t.patches, x, f);
  }

  // ---------- the calls ----------

  method CheckFold(db: Db, id: PatchId, into: PatchId, pendingOnly: bool) returns (r: Result<PatchId, TriageError>)
    requires db.Valid()
    ensures r == FoldTarget(db.Read(), id, into, pendingOnly)
  {
    if id !in db.patches { return Err(NoSuchPatch); }
    var p := db.patches[id];
    if p.source != Detected { return Err(NotDetected); }
    if p.triage != Pending && (pendingOnly || !CountsAsBalance(p)) { return Err(WrongState); }
    if db.rollout == Some(id) { return Err(ActiveRollout); }
    if into !in db.patches { return Err(NoTarget); }
    EndsAt(FoldPointers(db.patches), into);
    var c := ChainOf(db, into);
    ChainIsWalk(FoldPointers(db.patches), into, c.value);
    if id in c.value { return Err(Loop); }
    var target := c.value[|c.value| - 1];
    EffectiveStored(db.Read(), into);
    if !CountsAsBalance(db.patches[target]) { return Err(TargetNotBalance); }
    return Ok(target);
  }

  method TriageFold(db: Db, id: PatchId, into: PatchId) returns (r: Result<PatchId, TriageError>)
    requires db.Valid()
    modifies db
    ensures db.Valid() && db.Read() == TriageFolded(old(db.Read()), id, into)
    ensures r == FoldTarget(old(db.Read()), id, into, false)
  {
    r := CheckFold(db, id, into, false);
    if r.Ok? {
      TargetIsSound(db.Read(), id, into, false);
      var f := FoldInto(db, id, r.value);
    }
  }

  method TriageUnfold(db: Db, id: PatchId) returns (r: Result<(), TriageError>)
    requires db.Valid()
    modifies db
    ensures db.Valid() && db.Read() == TriageUnfolded(old(db.Read()), id)
    ensures r == UnfoldCheck(old(db.Read()), id)
  {
    if id !in db.patches { return Err(NoSuchPatch); }
    if db.patches[id].triage != Folded { return Err(NotFolded); }
    if db.patches[id].source == Detected && db.patches[id].fingerprint.None? { return Err(Merged); }
    if db.rollout == Some(id) { return Err(ActiveRollout); }
    UnfoldPatch(db, id);
    return Ok(());
  }

  method TriageBalance(db: Db, id: PatchId, name: string, notes: string) returns (r: Result<(), TriageError>)
    requires db.Valid()
    modifies db`patches
    ensures db.Valid() && db.Read() == TriagedBalance(old(db.Read()), id, name, notes)
    ensures r == BalanceCheck(old(db.patches), id, name, notes)
  {
    r := BalanceCheck(db.patches, id, name, notes);
    if r.Ok? {
      var p := db.patches[id].(triage := Balance, name := name, notes := notes);
      EditKeepsConsistent(db.Read(), id, p);
      db.patches := db.patches[id := p];
    }
  }

  method StandInId(db: Db, id: PatchId, base: PatchId) returns (r: Option<PatchId>)
    requires db.Valid() && id in db.patches
    ensures r == StandIn(db.Read(), id, base)
  {
    var ps := db.patches;
    if base in ps && ps[base].inputs.Some? { return Some(base); }
    var from := ps[id].cameFrom;
    if from.Some? && from.value != id && from.value in ps && ps[from.value].inputs.Some? {
      var end := ResolvePatch(db, from.value);
      if end == base { return from; }
    }
    var earlier := set p | p in ps && ps[p].inputs.Some? && ps[p].triage == Folded && p != id
                          && Earlier(SeenAt(ps), p, id);
    var order := InOrder(SeenAt(ps), earlier);
    r := LastResolvingTo(db, base, order, earlier);
    StandInsAre(db.Read(), id, base, earlier);
  }

  lemma StandInsAre(t: Tables, id: PatchId, base: PatchId, earlier: set<PatchId>)
    requires earlier == set p | p in t.patches && t.patches[p].inputs.Some? && t.patches[p].triage == Folded
                               && p != id && Earlier(SeenAt(t.patches), p, id)
    ensures StandIns(t, id, base) == set p | p in earlier && Effective(t.patches, p) == base
  {
    hide Effective, SeenAt;
  }

  /** prev.find(...) over the earlier folded patches, newest first. */
  method LastResolvingTo(db: Db, base: PatchId, order: seq<PatchId>, earlier: set<PatchId>) returns (r: Option<PatchId>)
    requires db.Valid() && earlier <= db.patches.Keys && order == InOrder(SeenAt(db.patches), earlier)
    ensures
      var found := InOrder(SeenAt(db.patches), set p | p in earlier && Effective(db.patches, p) == base);
      r == if found == [] then None else Some(found[|found| - 1])
  {
    ghost var ps := db.patches;
    ghost var ends := set p | p in earlier && Effective(ps, p) == base;
    var i := |order|;
    while i > 0
      invariant 0 <= i <= |order|
      invariant forall j | i <= j < |order| :: Effective(ps, order[j]) != base
    {
      i := i - 1;
      var end := ResolvePatch(db, order[i]);
      if end == base {
        FoundLast(ps, base, order, earlier, ends, i);
        return Some(order[i]);
      }
    }
    FoundNone(ps, base, order, earlier, ends);
    return None;
  }

  lemma FoundLast(ps: Patches, base: PatchId, order: seq<PatchId>, earlier: set<PatchId>, ends: set<PatchId>, i: nat)
    requires earlier <= ps.Keys && order == InOrder(SeenAt(ps), earlier) && i < |order|
    requires ends == set p | p in earlier && Effective(ps, p) == base
    requires Effective(ps, order[i]) == base && forall j | i < j < |order| :: Effective(ps, order[j]) != base
    ensures
      var found := InOrder(SeenAt(ps), ends);
      found != [] && found[|found| - 1] == order[i]
  {
    hide Effective;
    assert order[i] in order;
    LastInOrder(SeenAt(ps), order, InOrder(SeenAt(ps), ends), i);
  }

  lemma FoundNone(ps: Patches, base: PatchId, order: seq<PatchId>, earlier: set<PatchId>, ends: set<PatchId>)
    requires earlier <= ps.Keys && order == InOrder(SeenAt(ps), earlier)
    requires ends == set p | p in earlier && Effective(ps, p) == base
    requires forall j | 0 <= j < |order| :: Effective(ps, order[j]) != base
    ensures InOrder(SeenAt(ps), ends) == []
  {
    hide Effective;
    forall p | p in earlier ensures Effective(ps, p) != base { assert p in order; }
    assert ends == {};
  }

  /** Of two ordered lists, one inside the other: the last one of the longer
      that is also in the shorter ends the shorter. */
  lemma LastInOrder(time: map<int, int>, order: seq<int>, found: seq<int>, i: nat)
    requires forall a, b | 0 <= a < b < |order| :: Earlier(time, order[a], order[b])
    requires forall a, b | 0 <= a < b < |found| :: Earlier(time, found[a], found[b])
    requires forall x | x in found :: x in order
    requires i < |order| && order[i] in found
    requires forall j | i < j < |order| :: order[j] !in found
    ensures found != [] && found[|found| - 1] == order[i]
  {
    var last := found[|found| - 1];
    assert last in found;
    var k :| 0 <= k < |order| && order[k] == last;
    var a :| 0 <= a < |found| && found[a] == order[i];
    if a < |found| - 1 {
      assert Earlier(time, order[i], last);
      assert k < i ==> Earlier(time, last, order[i]);
    }
  }

  method TriageIgnore(db: Db, id: PatchId, q: IgnoreRequest) returns (r: Result<PatchId, TriageError>)
    requires db.Valid()
    modifies db
    ensures db.Valid() && db.Read() == Ignored(old(db.Read()), id, q)
    ensures r.Ok? <==> IgnoreSucceeds(old(db.Read()), id, q)
    ensures r.Ok? ==> r.value == Effective(db.patches, id)
    ensures Ignorable(old(db.Read()), id, q).Err? ==> r.Err? && r.error == Ignorable(old(db.Read()), id, q).error
  {
    var c := CheckIgnore(db, id, q);
    if c.Err? { return Err(c.error); }
    IgnorableTarget(db.Read(), id, q);
    var listed := ListAndRefingerprint(db, c.value.1, q);
    if listed.Err? { return Err(Violation); }
    JoinEnd(db, id, c.value.0);
    var end := ResolvePatch(db, id);
    return Ok(end);
  }

  method ListAndRefingerprint(db: Db, plugins: set<string>, q: IgnoreRequest) returns (r: Result<(), UniqueViolation>)
    requires db.Valid()
    modifies db
    ensures r.Ok? <==>
      DistinctFingerprints(Rehashed(Listed(old(db.Read()), plugins), q.ListsWith(old(db.ignored) + plugins)))
    ensures db.Valid() && db.Read() == if r.Ok? then IgnoreRewritten(old(db.Read()), plugins, q) else old(db.Read())
    ensures db.patches.Keys == old(db.patches).Keys
  {
    ghost var t := db.Read();
    ListedKeepsConsistent(t, plugins);
    var saved := db.ignored;
    db.ignored := db.ignored + plugins;
    var f := RefingerprintPatches(db, q.ListsWith(db.ignored));
    if f.Err? {
      db.ignored := saved;
      return Err(UniqueViolation);
    }
    RewrittenIsConsistent(t, plugins, q);
    return Ok(());
  }

  method JoinEnd(db: Db, id: PatchId, target: PatchId)
    requires db.Valid() && id in db.patches && target in db.patches
    modifies db
    ensures db.Valid() && db.Read() == EndJoined(old(db.Read()), id, target)
  {
    var end := ResolvePatch(db, id);
    var targetEnd := ResolvePatch(db, target);
    EffectiveStored(db.Read(), id);
    if end != targetEnd && db.patches[end].triage == Pending {
      var _ := FoldInto(db, end, target);
    }
  }

  method CheckIgnore(db: Db, id: PatchId, q: IgnoreRequest) returns (r: Result<(PatchId, set<string>), TriageError>)
    requires db.Valid()
    ensures r == Ignorable(db.Read(), id, q)
  {
    var c := CheckFold(db, id, q.into, true);
    if c.Err? { return Err(c.error); }
    var ignored := q.ListsWith(db.ignored).ignored;
    var standIn := StandInId(db, id, c.value);
    var mine := ReadStored(if id in db.patches then db.patches[id].inputs else None, ignored);
    if standIn.None? { return Err(NoInputs); }
    var theirs := ReadStored(if standIn.value in db.patches then db.patches[standIn.value].inputs else None, ignored);
    if mine.None? || theirs.None? { return Err(NoInputs); }
    if !OnlyPluginsDiffer(theirs.value, mine.value, q.versionless) { return Err(NotOnlyPlugins); }
    var differ := DifferingPlugins(theirs.value, mine.value, q.versionless);
    if q.plugins != Some(differ) { return Err(PluginsDiffer); }
    return Ok((c.value, differ));
  }
}
