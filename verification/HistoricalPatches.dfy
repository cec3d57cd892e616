/**
 Patches from before rounds carried a fingerprint (applyHistoricalPatches in src/historicalPatches.ts):
 inserted once, and rounds nobody tagged are given to them by when they started.
 */
module HistoricalPatches {
  import opened Wrappers
  import opened PointerForest
  import opened BalanceTables
  import opened BalancePatches
  import opened RowOrder
  import opened Sightings

  datatype Past = Past(name: string, notes: string, from: Time)

  /** match_rounds.started_at, for rounds that have one. */
  type Starts = map<RoundKey, Time>

  function PastPatch(p: Past): Patch {
    Patch(None, Historical, p.name, p.notes, None, p.from, Balance, None, None, None, None)
  }

  /** `end` is None when nothing bounds it. */
  predicate Within(at: Time, from: Time, end: Option<Time>) {
    from <= at && (end.Some? ==> at < end.value)
  }

  predicate Untagged(r: Round, k: RoundKey, starts: Starts, from: Time, end: Option<Time>) {
    r.patch.None? && k in starts && Within(starts[k], from, end)
  }

  function TagPast(rounds: map<RoundKey, Round>, starts: Starts, id: PatchId, from: Time, end: Option<Time>)
    : map<RoundKey, Round>
  {
    map k | k in rounds ::
      if Untagged(rounds[k], k, starts, from, end) then Round(Some(id), Some(id)) else rounds[k]
  }

  function Earliest(a: Option<Time>, b: Option<Time>): Option<Time> {
    if a.None? then b else if b.None? then a else if a.value < b.value then a else b
  }

  /** Where a past patch ends: at the next one, and never after the first recorded config. */
  function EndOf(pasts: seq<Past>, i: nat, first: Option<Time>): Option<Time>
    requires i < |pasts|
  {
    Earliest(first, if i + 1 < |pasts| then Some(pasts[i + 1].from) else None)
  }

  function Recorded(ps: Patches): set<PatchId> {
    set id | id in ps && ps[id].source != Historical
  }

  /** MIN(first_seen_at) of the patches that were recorded. */
  function FirstSeen(ps: Patches): Option<Time> {
    var order := InOrder(SeenAt(ps), Recorded(ps));
    if order == [] then None else Some(ps[order[0]].firstSeen)
  }

  function WithPast(t: Tables, starts: Starts, p: Past, id: PatchId, end: Option<Time>): Tables {
    t.(patches := t.patches[id := PastPatch(p)], rounds := TagPast(t.rounds, starts, id, p.from, end))
  }

  function WithPasts(t: Tables, starts: Starts, pasts: seq<Past>, ids: seq<PatchId>, first: Option<Time>, n: nat)
    : Tables
    requires n <= |pasts| == |ids|
  {
    if n == 0 then t
    else
      var before := WithPasts(t, starts, pasts, ids, first, n - 1);
      WithPast(before, starts, pasts[n - 1], ids[n - 1], EndOf(pasts, n - 1, first))
  }

  predicate AppliedBefore(ps: Patches) {
    exists id | id in ps :: ps[id].source == Historical
  }

  function HistoricalApplied(t: Tables, starts: Starts, pasts: seq<Past>, ids: seq<PatchId>): Tables
    requires |pasts| == |ids|
  {
    if AppliedBefore(t.patches) then t else WithPasts(t, starts, pasts, ids, FirstSeen(t.patches), |pasts|)
  }

  /** Ids the database hands out. */
  ghost predicate NewIds(ps: Patches, ids: seq<PatchId>) {
    (forall id | id in ids :: id !in ps) && forall i, j | 0 <= i < j < |ids| :: ids[i] != ids[j]
  }

  // ---------- what it keeps ----------

  lemma PastKeepsConsistent(t: Tables, starts: Starts, p: Past, id: PatchId, end: Option<Time>)
    requires Consistent(t) && id !in t.patches
    ensures Consistent(WithPast(t, starts, p, id, end))
  {
    InsertKeepsConsistent(t, id, PastPatch(p));
    var u := t.(patches := t.patches[id := PastPatch(p)]);
    RootOfEnd(FoldPointers(u.patches), id);
    TagKeepsDerived(u, starts, id, p.from, end);
  }

  lemma TagKeepsDerived(t: Tables, starts: Starts, id: PatchId, from: Time, end: Option<Time>)
    requires Consistent(t) && id in t.patches && Effective(t.patches, id) == id
    ensures Consistent(t.(rounds := TagPast(t.rounds, starts, id, from, end)))
  {
    hide FoldPointers, DistinctFingerprints, PublicationSound, Effective, Acyclic;
  }

  lemma {:induction false} PastsKeepConsistent(t: Tables, starts: Starts, pasts: seq<Past>, ids: seq<PatchId>,
                                               first: Option<Time>, n: nat)
    requires Consistent(t) && n <= |pasts| == |ids| && NewIds(t.patches, ids)
    ensures
      var u := WithPasts(t, starts, pasts, ids, first, n);
      && Consistent(u) && u.rounds.Keys == t.rounds.Keys
      && (forall id | id in u.patches :: id in t.patches || id in ids[..n])
      && forall id | id in t.patches :: id in u.patches && u.patches[id] == t.patches[id]
  {
    hide Consistent;
    if n > 0 {
      PastsKeepConsistent(t, starts, pasts, ids, first, n - 1);
      var u := WithPasts(t, starts, pasts, ids, first, n - 1);
      assert ids[n - 1] in ids && ids[..n - 1] == ids[..n][..n - 1];
      PastKeepsConsistent(u, starts, pasts[n - 1], ids[n - 1], EndOf(pasts, n - 1, first));
    }
  }

  lemma HistoricalKeepsConsistent(t: Tables, starts: Starts, pasts: seq<Past>, ids: seq<PatchId>)
    requires Consistent(t) && |pasts| == |ids| && NewIds(t.patches, ids)
    ensures
      var u := HistoricalApplied(t, starts, pasts, ids);
      Consistent(u) && forall id | id in t.patches :: id in u.patches && u.patches[id] == t.patches[id]
  {
    PastsKeepConsistent(t, starts, pasts, ids, FirstSeen(t.patches), |pasts|);
  }

  // ---------- which rounds it tags ----------

  ghost predicate Ascending(pasts: seq<Past>) {
    forall i, j | 0 <= i < j < |pasts| :: pasts[i].from < pasts[j].from
  }

  /** The past patch whose time a round of that start falls into, before the first recorded config. */
  predicate Covers(pasts: seq<Past>, i: nat, first: Option<Time>, at: Time) {
    i < |pasts| && Within(at, pasts[i].from, EndOf(pasts, i, first))
  }

  lemma CoversNoLater(pasts: seq<Past>, i: nat, j: nat, first: Option<Time>, at: Time)
    requires Ascending(pasts) && i < j < |pasts| && Covers(pasts, i, first, at)
    ensures !Covers(pasts, j, first, at)
  {
    assert pasts[i + 1].from <= pasts[j].from;
  }

  lemma {:induction false} NotCovered(t: Tables, starts: Starts, pasts: seq<Past>, ids: seq<PatchId>,
                                      first: Option<Time>, n: nat, k: RoundKey)
    requires n <= |pasts| == |ids| && k in t.rounds
    requires t.rounds[k].patch.None? && k in starts ==> forall i | 0 <= i < n :: !Covers(pasts, i, first, starts[k])
    ensures
      var u := WithPasts(t, starts, pasts, ids, first, n);
      k in u.rounds && u.rounds[k] == t.rounds[k]
  {
    if n > 0 {
      NotCovered(t, starts, pasts, ids, first, n - 1, k);
      assert k in starts && t.rounds[k].patch.None? ==> !Covers(pasts, n - 1, first, starts[k]);
    }
  }

  lemma {:induction false} Covered(t: Tables, starts: Starts, pasts: seq<Past>, ids: seq<PatchId>,
                                   first: Option<Time>, n: nat, k: RoundKey, i: nat)
    requires Ascending(pasts) && i < n <= |pasts| == |ids|
    requires k in t.rounds && t.rounds[k].patch.None? && k in starts && Covers(pasts, i, first, starts[k])
    ensures
      var u := WithPasts(t, starts, pasts, ids, first, n);
      k in u.rounds && u.rounds[k] == Round(Some(ids[i]), Some(ids[i]))
  {
    if i < n - 1 {
      Covered(t, starts, pasts, ids, first, n - 1, k, i);
    } else {
      forall j | 0 <= j < i ensures !Covers(pasts, j, first, starts[k]) {
        if Covers(pasts, j, first, starts[k]) { CoversNoLater(pasts, j, i, first, starts[k]); }
      }
      NotCovered(t, starts, pasts, ids, first, n - 1, k);
    }
  }

  /**
   A round nobody tagged gets the one past patch its start falls into, if there is one; so none that
   started at or after the first recorded config is guessed at. No other round changes.
   */
  lemma TaggedByStart(t: Tables, starts: Starts, pasts: seq<Past>, ids: seq<PatchId>, k: RoundKey)
    requires Ascending(pasts) && |pasts| == |ids| && !AppliedBefore(t.patches) && k in t.rounds
    ensures
      var u, first := HistoricalApplied(t, starts, pasts, ids), FirstSeen(t.patches);
      && k in u.rounds
      && (t.rounds[k].patch.Some? || k !in starts ==> u.rounds[k] == t.rounds[k])
      && (t.rounds[k].patch.None? && k in starts ==>
            && (forall i: nat | Covers(pasts, i, first, starts[k]) :: u.rounds[k] == Round(Some(ids[i]), Some(ids[i])))
            && ((forall i: nat :: !Covers(pasts, i, first, starts[k])) ==> u.rounds[k] == t.rounds[k])
            && (first.Some? && starts[k] >= first.value ==> u.rounds[k] == t.rounds[k]))
  {
    hide WithPasts, FirstSeen, Within, EndOf;
    var first := FirstSeen(t.patches);
    if t.rounds[k].patch.None? && k in starts {
      AfterFirstIsNotCovered(pasts, first, starts[k]);
      if i: nat :| Covers(pasts, i, first, starts[k]) {
        forall j: nat | Covers(pasts, j, first, starts[k])
          ensures
            var u := WithPasts(t, starts, pasts, ids, first, |pasts|);
            k in u.rounds && u.rounds[k] == Round(Some(ids[j]), Some(ids[j]))
        {
          Covered(t, starts, pasts, ids, first, |pasts|, k, j);
        }
        Covered(t, starts, pasts, ids, first, |pasts|, k, i);
      } else {
        NotCovered(t, starts, pasts, ids, first, |pasts|, k);
      }
    } else {
      NotCovered(t, starts, pasts, ids, first, |pasts|, k);
    }
  }

  lemma AfterFirstIsNotCovered(pasts: seq<Past>, first: Option<Time>, at: Time)
    ensures first.Some? && at >= first.value ==> forall i: nat :: !Covers(pasts, i, first, at)
  {
  }

  /** The start falls into the time of a past patch, before the next one's and before any config was recorded. */
  ghost predicate FallsIn(t: Tables, pasts: seq<Past>, i: nat, at: Time) {
    && i < |pasts| && pasts[i].from <= at && (i + 1 < |pasts| ==> at < pasts[i + 1].from)
    && forall id | id in t.patches :: at < t.patches[id].firstSeen
  }

  lemma FirstSeenIsEarliest(t: Tables, at: Time)
    requires !AppliedBefore(t.patches)
    ensures
      var first := FirstSeen(t.patches);
      (first.Some? ==> at < first.value) <==> forall id | id in t.patches :: at < t.patches[id].firstSeen
  {
    var ps, order := t.patches, InOrder(SeenAt(t.patches), Recorded(t.patches));
    assert forall id | id in ps :: id in Recorded(ps) && id in order;
    if order != [] {
      assert order[0] in order;
      forall id | id in ps ensures ps[order[0]].firstSeen <= ps[id].firstSeen {
        var j :| 0 <= j < |order| && order[j] == id;
      }
    }
  }

  /** So an untagged round gets the past patch its start falls into and no other, each patch with what was written
      of it. */
  lemma PastsAreTagged(t: Tables, starts: Starts, pasts: seq<Past>, ids: seq<PatchId>, k: RoundKey)
    requires Ascending(pasts) && |pasts| == |ids| && !AppliedBefore(t.patches)
    requires k in t.rounds && t.rounds[k].patch.None? && k in starts
    ensures
      var u := HistoricalApplied(t, starts, pasts, ids);
      && k in u.rounds
      && (forall i: nat | FallsIn(t, pasts, i, starts[k]) :: u.rounds[k] == Round(Some(ids[i]), Some(ids[i])))
      && ((forall i: nat :: !FallsIn(t, pasts, i, starts[k])) ==> u.rounds[k] == t.rounds[k])
  {
    var first := FirstSeen(t.patches);
    FirstSeenIsEarliest(t, starts[k]);
    hide HistoricalApplied, FirstSeen, AppliedBefore;
    forall i: nat ensures Covers(pasts, i, first, starts[k]) <==> FallsIn(t, pasts, i, starts[k]) {}
    hide Covers, FallsIn;
    TaggedByStart(t, starts, pasts, ids, k);
  }

  lemma {:induction false} PastRows(t: Tables, starts: Starts, pasts: seq<Past>, ids: seq<PatchId>,
                                    first: Option<Time>, n: nat, i: nat)
    requires i < n <= |pasts| == |ids| && forall a, b | 0 <= a < b < |ids| :: ids[a] != ids[b]
    ensures
      var u := WithPasts(t, starts, pasts, ids, first, n).patches;
      ids[i] in u && u[ids[i]] == PastPatch(pasts[i])
  {
    if i < n - 1 { PastRows(t, starts, pasts, ids, first, n - 1, i); }
  }

  /** Each past patch is stored once as a balance patch from its time on, under its name and notes, with no
      fingerprint of its own. */
  lemma PastsAreStored(t: Tables, starts: Starts, pasts: seq<Past>, ids: seq<PatchId>, i: nat)
    requires !AppliedBefore(t.patches) && i < |pasts| == |ids| && NewIds(t.patches, ids)
    ensures
      var u := HistoricalApplied(t, starts, pasts, ids).patches;
      && ids[i] in u
      && u[ids[i]] == Patch(None, Historical, pasts[i].name, pasts[i].notes, None, pasts[i].from, Balance, None, None,
                            None, None)
  {
    PastRows(t, starts, pasts, ids, FirstSeen(t.patches), |pasts|, i);
  }

  // ---------- the call ----------

  method FirstDetected(ps: Patches) returns (first: Option<Time>)
    ensures first == FirstSeen(ps)
  {
    var order := InOrder(SeenAt(ps), Recorded(ps));
    first := if order == [] then None else Some(ps[order[0]].firstSeen);
  }

  /** The INSERT and the UPDATE of one past patch; `tagged` is what the UPDATE changed. */
  method ApplyPast(db: Db, starts: Starts, p: Past, id: PatchId, end: Option<Time>) returns (tagged: set<RoundKey>)
    requires db.Valid() && id !in db.patches
    modifies db`patches, db`rounds
    ensures db.Valid() && db.Read() == WithPast(old(db.Read()), starts, p, id, end)
    ensures forall k ::
      k in tagged <==> k in old(db.rounds) && old(db.rounds)[k].patch.None? && db.rounds[k].patch.Some?
  {
    PastKeepsConsistent(db.Read(), starts, p, id, end);
    tagged := set k | k in db.rounds && Untagged(db.rounds[k], k, starts, p.from, end);
    db.patches := db.patches[id := PastPatch(p)];
    db.rounds := TagPast(db.rounds, starts, id, p.from, end);
  }

  ghost function Tagged(t: Tables, u: Tables): set<RoundKey> {
    set k | k in t.rounds && k in u.rounds && t.rounds[k].patch.None? && u.rounds[k].patch.Some?
  }

  lemma TaggedMore(t: Tables, u: Tables, v: Tables, more: set<RoundKey>)
    requires u.rounds.Keys == t.rounds.Keys && v.rounds.Keys == u.rounds.Keys
    requires forall k :: k in more <==> k in u.rounds && u.rounds[k].patch.None? && v.rounds[k].patch.Some?
    requires forall k | k in t.rounds && t.rounds[k].patch.Some? :: u.rounds[k].patch.Some?
    requires forall k | k in u.rounds && u.rounds[k].patch.Some? :: v.rounds[k].patch.Some?
    ensures |Tagged(t, v)| == |Tagged(t, u)| + |more|
  {
    assert Tagged(t, v) == Tagged(t, u) + more && Tagged(t, u) !! more;
  }

  /** A dry run goes through it all and rolls back. */
  method ApplyHistoricalPatches(db: Db, starts: Starts, pasts: seq<Past>, ids: seq<PatchId>, dryRun: bool)
    returns (created: nat, tagged: nat)
    requires db.Valid() && |pasts| == |ids| && NewIds(db.patches, ids)
    modifies db
    ensures db.Valid()
    ensures db.Read() == if dryRun then old(db.Read()) else HistoricalApplied(old(db.Read()), starts, pasts, ids)
    ensures created == if AppliedBefore(old(db.patches)) then 0 else |pasts|
    ensures tagged == |Tagged(old(db.Read()), HistoricalApplied(old(db.Read()), starts, pasts, ids))|
  {
    ghost var t := db.Read();
    if AppliedBefore(db.patches) {
      assert Tagged(t, t) == {};
      return 0, 0;
    }
    var patches, rounds := db.patches, db.rounds;
    var first := FirstDetected(db.patches);
    tagged := ApplyAll(db, starts, pasts, ids, first);
    created := |pasts|;
    if dryRun { db.patches, db.rounds := patches, rounds; }
  }

  method ApplyAll(db: Db, starts: Starts, pasts: seq<Past>, ids: seq<PatchId>, first: Option<Time>)
    returns (tagged: nat)
    requires db.Valid() && |pasts| == |ids| && NewIds(db.patches, ids)
    modifies db`patches, db`rounds
    ensures db.Valid() && db.Read() == WithPasts(old(db.Read()), starts, pasts, ids, first, |pasts|)
    ensures tagged == |Tagged(old(db.Read()), db.Read())|
  {
    hide Consistent, NewIds, WithPasts, WithPast, EndOf, Tagged;
    ghost var t := db.Read();
    tagged := 0;
    NothingApplied(t, starts, pasts, ids, first);
    for i := 0 to |pasts|
      invariant db.Valid() && db.Read() == WithPasts(t, starts, pasts, ids, first, i)
      invariant tagged == |Tagged(t, db.Read())|
    {
      NewIdIsNew(t, starts, pasts, ids, first, i);
      var more := ApplyPast(db, starts, pasts[i], ids[i], EndOf(pasts, i, first));
      OneMoreApplied(t, starts, pasts, ids, first, i, more);
      tagged := tagged + |more|;
    }
  }

  lemma NothingApplied(t: Tables, starts: Starts, pasts: seq<Past>, ids: seq<PatchId>, first: Option<Time>)
    requires |pasts| == |ids|
    ensures WithPasts(t, starts, pasts, ids, first, 0) == t && |Tagged(t, t)| == 0
  {
    assert Tagged(t, t) == {};
  }

  lemma NewIdIsNew(t: Tables, starts: Starts, pasts: seq<Past>, ids: seq<PatchId>, first: Option<Time>, i: nat)
    requires Consistent(t) && i < |pasts| == |ids| && NewIds(t.patches, ids)
    ensures ids[i] !in WithPasts(t, starts, pasts, ids, first, i).patches
  {
    PastsKeepConsistent(t, starts, pasts, ids, first, i);
    assert ids[i] in ids;
  }

  /** A round that has a tag keeps it. */
  lemma {:induction false} TagsStay(t: Tables, starts: Starts, pasts: seq<Past>, ids: seq<PatchId>,
                                    first: Option<Time>, n: nat)
    requires n <= |pasts| == |ids|
    ensures
      var u := WithPasts(t, starts, pasts, ids, first, n);
      u.rounds.Keys == t.rounds.Keys && forall k | k in t.rounds && t.rounds[k].patch.Some? :: u.rounds[k].patch.Some?
  {
    if n > 0 { TagsStay(t, starts, pasts, ids, first, n - 1); }
  }

  lemma OneMoreApplied(t: Tables, starts: Starts, pasts: seq<Past>, ids: seq<PatchId>, first: Option<Time>, i: nat,
                       more: set<RoundKey>)
    requires i < |pasts| == |ids|
    requires
      var u := WithPasts(t, starts, pasts, ids, first, i);
      var v := WithPast(u, starts, pasts[i], ids[i], EndOf(pasts, i, first));
      forall k :: k in more <==> k in u.rounds && u.rounds[k].patch.None? && v.rounds[k].patch.Some?
    ensures
      var u, v := WithPasts(t, starts, pasts, ids, first, i), WithPasts(t, starts, pasts, ids, first, i + 1);
      && v == WithPast(u, starts, pasts[i], ids[i], EndOf(pasts, i, first))
      && |Tagged(t, v)| == |Tagged(t, u)| + |more|
  {
    TagsStay(t, starts, pasts, ids, first, i);
    TaggedMore(t, WithPasts(t, starts, pasts, ids, first, i), WithPasts(t, starts, pasts, ids, first, i + 1), more);
  }
}
