/** A row's key leads to the recording the row names, while no other file takes the row over. */
module DemoKeys {
  import opened Wrappers
  import opened Demos
  import opened DemoOffload
  import opened DemoLaws

  /** A row with a key names the file stored under that key, whole. */
  ghost predicate RowFits(w: World, slot: Slot, row: Row) {
    && SlotOf(row.filename) == slot
    && (row.key.Some? ==> row.key.value == Key(row.filename) && Stored(w, row.filename))
  }

  ghost predicate RowsFit(w: World) {
    forall slot | slot in w.rows :: RowFits(w, slot, w.rows[slot])
  }

  /** No row has the key this upload is for. */
  ghost predicate NotKeyed(rows: Rows, snap: Snap) {
    snap.slot in rows ==> rows[snap.slot].key != Some(Key(snap.row.filename))
  }

  ghost predicate SnapFits(w: World, snap: Snap) {
    RowFits(w, snap.slot, snap.row) && (snap.row.key.None? ==> NotKeyed(w.rows, snap))
  }

  ghost predicate TodoFits(w: World, todo: seq<Snap>) {
    && (forall s | s in todo :: SnapFits(w, s))
    && (forall i, j | 0 <= i < j < |todo| :: todo[i].slot != todo[j].slot)
  }

  ghost predicate UploadFits(w: World, snap: Snap, found: Found) {
    snap.row.key.None? && found.name == snap.row.filename && Whole(w, found)
  }

  ghost predicate WorkFits(w: World) {
    match w.work
    case Idle => true
    case Turn(todo) => TodoFits(w, todo)
    case Checking(_, _, todo) => TodoFits(w, todo)
    case Putting(snap, found, todo) => TodoFits(w, [snap] + todo) && UploadFits(w, snap, found)
    case Verifying(snap, found, todo) => TodoFits(w, [snap] + todo) && UploadFits(w, snap, found)
    case Removing(_, todo) => TodoFits(w, todo)
  }

  ghost predicate Good(w: World) {
    WholeFiles(w) && RowsFit(w) && OwnObjects(w) && WorkFits(w)
  }

  /** The row still names the file it named when the sweep read it. */
  predicate StillNames(rows: Rows, snap: Snap) {
    snap.slot in rows ==> rows[snap.slot].filename == snap.row.filename
  }

  /** No other file took the row over between the SELECT and the row's turn, or before its key is written. */
  predicate NotTakenOver(w: World, e: Event) {
    match e
    case Look(_, _) => w.work.Turn? && w.work.todo != [] ==> StillNames(w.rows, w.work.todo[0])
    case HeadSettles(_, _) => w.work.Verifying? ==> StillNames(w.rows, w.work.snap)
    case _ => true
  }

  // ---------- every step ----------

  lemma SelectFits(w: World, matchId: int, todo: seq<Snap>)
    requires Good(w) && CanHappen(w, Select(matchId, todo))
    ensures Good(After(w, Select(matchId, todo)))
  {
    forall s | s in todo ensures SnapFits(w, s) { assert RowFits(w, s.slot, w.rows[s.slot]); }
  }

  lemma TailFits(w: World, todo: seq<Snap>)
    requires TodoFits(w, todo) && todo != []
    ensures TodoFits(w, todo[1..])
  {
    forall i, j | 0 <= i < j < |todo| - 1 ensures todo[1..][i].slot != todo[1..][j].slot {
      assert todo[1..][i] == todo[i + 1] && todo[1..][j] == todo[j + 1];
    }
  }

  lemma LookFits(w: World, quiet: bool, reclaim: bool)
    requires Good(w) && CanHappen(w, Look(quiet, reclaim)) && NotTakenOver(w, Look(quiet, reclaim))
    ensures Good(After(w, Look(quiet, reclaim)))
  {
    var v := After(w, Look(quiet, reclaim));
    OnlyWorkChanged(w, v);
    if w.work.Turn? && w.work.todo != [] {
      TailFits(w, w.work.todo);
      assert [w.work.todo[0]] + w.work.todo[1..] == w.work.todo;
    }
    hide RowsFit, TodoFits, OwnObjects;
  }

  lemma OnlyWorkChanged(w: World, v: World)
    requires v == w.(work := v.work)
    ensures WholeFiles(v) == WholeFiles(w) && RowsFit(v) == RowsFit(w) && OwnObjects(v) == OwnObjects(w)
    ensures forall todo :: TodoFits(v, todo) == TodoFits(w, todo)
  {
    assert forall slot, row :: RowFits(v, slot, row) == RowFits(w, slot, row);
    assert forall snap :: SnapFits(v, snap) == SnapFits(w, snap);
  }

  /** Every other row of the turn is of another slot, and so of another file. */
  lemma OthersAreOfOtherSlots(w: World, snap: Snap, todo: seq<Snap>)
    requires TodoFits(w, [snap] + todo)
    ensures SnapFits(w, snap) && TodoFits(w, todo)
    ensures forall s | s in todo :: SlotOf(s.row.filename) == s.slot != snap.slot == SlotOf(snap.row.filename)
  {
    var all := [snap] + todo;
    assert all[0] == snap && all[1..] == todo;
    TailFits(w, all);
    assert SnapFits(w, snap);
    forall s | s in todo ensures SlotOf(s.row.filename) == s.slot != snap.slot {
      assert SnapFits(w, s);
      var i :| 0 <= i < |todo| && todo[i] == s;
      assert all[i + 1] == s && all[0].slot != all[i + 1].slot;
    }
  }

  lemma AllFit(w: World, v: World, snap: Snap, todo: seq<Snap>)
    requires TodoFits(w, [snap] + todo) && SnapFits(v, snap) && forall s | s in todo :: SnapFits(v, s)
    ensures TodoFits(v, todo) && TodoFits(v, [snap] + todo)
  {
    OthersAreOfOtherSlots(w, snap, todo);
    forall s | s in [snap] + todo ensures SnapFits(v, s) { assert s == snap || s in todo; }
  }

  /** Only the object of the file being put changes, and no row has its key yet. */
  lemma PutFits(w: World, ok: bool, stored: Option<nat>)
    requires Good(w) && w.work.Putting?
    ensures Good(After(w, PutSettles(ok, stored)))
  {
    var v := After(w, PutSettles(ok, stored));
    var snap, todo := w.work.snap, w.work.todo;
    OthersAreOfOtherSlots(w, snap, todo);
    forall slot | slot in v.rows ensures RowFits(v, slot, v.rows[slot]) { assert RowFits(w, slot, w.rows[slot]); }
    forall s | s in todo ensures SnapFits(v, s) { assert SnapFits(w, s); }
    AllFit(w, v, snap, todo);
  }

  lemma WriteFits(w: World, answered: bool, reclaim: bool)
    requires Good(w) && w.work.Verifying? && StillNames(w.rows, w.work.snap)
    ensures Good(After(w, HeadSettles(answered, reclaim)))
  {
    var v := After(w, HeadSettles(answered, reclaim));
    var snap, todo := w.work.snap, w.work.todo;
    OthersAreOfOtherSlots(w, snap, todo);
    forall slot | slot in v.rows ensures RowFits(v, slot, v.rows[slot]) { assert RowFits(w, slot, w.rows[slot]); }
    forall s | s in todo ensures SnapFits(v, s) { assert SnapFits(w, s); }
  }

  /** Files and objects stay whole, no row gains a key, none loses its fit. */
  ghost predicate RowsAside(w: World, v: World) {
    && v.bucket == w.bucket
    && (forall name | name in w.finished :: name in v.finished && v.finished[name] == w.finished[name])
    && (forall slot | slot in v.rows && v.rows[slot].key.Some? ::
          slot in w.rows && v.rows[slot] == w.rows[slot].(bytes := v.rows[slot].bytes))
    && (forall slot | slot in v.rows :: SlotOf(v.rows[slot].filename) == slot)
  }

  lemma RowsAsideFits(w: World, v: World)
    requires RowsFit(w) && RowsAside(w, v)
    ensures RowsFit(v)
    ensures forall snap :: SnapFits(w, snap) ==> SnapFits(v, snap)
    ensures forall todo :: TodoFits(w, todo) ==> TodoFits(v, todo)
  {
    forall slot | slot in v.rows ensures RowFits(v, slot, v.rows[slot]) {
      if v.rows[slot].key.Some? { assert RowFits(w, slot, w.rows[slot]); }
    }
  }

  lemma RecordIsAside(w: World, matchId: int, found: seq<Found>)
    requires RowsFit(w) && CanHappen(w, Record(matchId, found))
    ensures RowsAside(w, After(w, Record(matchId, found)))
  {
    var v := After(w, Record(matchId, found));
    forall slot | slot in v.rows
      ensures SlotOf(v.rows[slot].filename) == slot
      ensures v.rows[slot].key.Some? ==> slot in w.rows && v.rows[slot] == w.rows[slot].(bytes := v.rows[slot].bytes)
    {
      if slot in w.rows { assert RowFits(w, slot, w.rows[slot]); }
      BestIsOfFound(found, slot.ordinal);
    }
  }

  lemma OtherIsAside(w: World, e: Event)
    requires RowsFit(w)
    requires e.Prune? || e.Grow? || e.Finish? || e.RemoveSettles? || (e.HeadSettles? && !w.work.Verifying?)
    ensures RowsAside(w, After(w, e))
  {
    var v := After(w, e);
    assert v.rows == w.rows || (e.Prune? && v.rows == Unlinked(w.rows, e.name));
    assert v.bucket == w.bucket && (v.finished == w.finished || e.Finish?);
    RowsOnlyGo(w, v);
    hide RowsFit, Recorded, Best, Unlinked, Matches;
  }

  lemma RowsOnlyGo(w: World, v: World)
    requires RowsFit(w) && forall slot | slot in v.rows :: slot in w.rows && v.rows[slot] == w.rows[slot]
    ensures forall slot | slot in v.rows && v.rows[slot].key.Some? ::
              slot in w.rows && v.rows[slot] == w.rows[slot].(bytes := v.rows[slot].bytes)
    ensures forall slot | slot in v.rows :: SlotOf(v.rows[slot].filename) == slot
  {
    forall slot | slot in v.rows
      ensures SlotOf(v.rows[slot].filename) == slot
    {
      assert RowFits(w, slot, w.rows[slot]);
    }
  }

  lemma StepFits(w: World, e: Event)
    requires Good(w) && CanHappen(w, e) && NotTakenOver(w, e)
    ensures Good(After(w, e))
  {
    if e.Select? {
      SelectFits(w, e.matchId, e.todo);
    } else if e.Look? {
      LookFits(w, e.quiet, e.reclaim);
    } else if e.PutSettles? {
      if w.work.Putting? { PutFits(w, e.ok, e.stored); }
    } else if e.HeadSettles? && w.work.Verifying? {
      WriteFits(w, e.answered, e.reclaim);
    } else {
      AsideFits(w, e);
    }
  }

  lemma AsideFits(w: World, e: Event)
    requires Good(w) && CanHappen(w, e) && !e.Select? && !e.Look? && !e.PutSettles?
    requires !(e.HeadSettles? && w.work.Verifying?)
    ensures Good(After(w, e))
  {
    var v := After(w, e);
    if e.Record? { RecordIsAside(w, e.matchId, e.found); } else { OtherIsAside(w, e); }
    RowsAsideFits(w, v);
    hide RowsFit, RowsAside, TodoFits, Recorded, Best, Unlinked, Matches;
  }

  // ---------- every run ----------

  ghost predicate Undisturbed(w: World, events: seq<Event>)
    decreases |events|
  {
    events == [] || (NotTakenOver(w, events[0]) && Undisturbed(After(w, events[0]), events[1..]))
  }

  lemma {:induction false} RunFits(w: World, events: seq<Event>)
    requires Good(w) && Happens(w, events) && Undisturbed(w, events)
    ensures Good(Run(w, events))
    decreases |events|
  {
    hide Good, After, CanHappen, NotTakenOver;
    if events != [] {
      StepFits(w, events[0]);
      RunFits(After(w, events[0]), events[1..]);
    }
  }

  /** The download of a row: the whole recording the row names, and no other. */
  ghost predicate Serves(w: World, row: Row) {
    row.key.Some? ==>
      row.filename in w.finished && row.key.value in w.bucket
      && w.bucket[row.key.value] == Recording(row.filename, w.finished[row.filename])
  }

  /**
   Over every run in which no other file takes a row over during its turn, every row with a key serves its own
   recording.
   */
  lemma RowsServeTheirOwn(events: seq<Event>, slot: Slot)
    requires Happens(Empty, events) && Undisturbed(Empty, events)
    ensures
      var w := Run(Empty, events);
      slot in w.rows ==>
        Serves(w, w.rows[slot]) && (w.rows[slot].key.Some? ==> w.rows[slot].key.value == Key(w.rows[slot].filename))
  {
    assert Good(Empty);
    RunFits(Empty, events);
    var w := Run(Empty, events);
    if slot in w.rows { assert RowFits(w, slot, w.rows[slot]); }
  }

  // ---------- the row that is taken over ----------

  /**
   Writing the key leaves every row serving its own recording exactly when the row still names the file that was
   uploaded.
   */
  lemma ServesIffStillNames(w: World, reclaim: bool)
    requires Good(w) && w.work.Verifying? && Matches(w.bucket, Key(w.work.snap.row.filename), w.work.found)
    ensures
      var v := After(w, HeadSettles(true, reclaim));
      (forall slot | slot in v.rows :: Serves(v, v.rows[slot])) <==> StillNames(w.rows, w.work.snap)
  {
    var v := After(w, HeadSettles(true, reclaim));
    var snap := w.work.snap;
    forall slot | slot in v.rows && slot != snap.slot
      ensures Serves(v, v.rows[slot])
    {
      assert RowFits(w, slot, w.rows[slot]);
    }
    assert w.bucket[Key(snap.row.filename)] == Recording(w.work.found.name, w.work.found.bytes);
    if snap.slot in w.rows { assert v.rows[snap.slot] == w.rows[snap.slot].(key := Some(Key(snap.row.filename))); }
  }

  /** A match with two recordings of its first map, the row naming the smaller, at that row's turn. */
  ghost function TwoFiles(small: Name, large: Name): World {
    var slot := SlotOf(small);
    World(map[small := 5, large := 9], map[], map[slot := Row(small, 5, None)], Turn([Snap(slot, Row(small, 5, None))]),
          map[small := 5, large := 9], {})
  }

  /** The larger is recorded while the smaller uploads. */
  ghost function TakenOverMeanwhile(small: Name, large: Name): seq<Event> {
    [Look(true, true), PutSettles(true, Some(5)), Record(large.matchId, [Found(small, 5), Found(large, 9)]),
     HeadSettles(true, true)]
  }

  ghost function Uploading(small: Name, large: Name): World {
    TwoFiles(small, large).(
      bucket := map[Key(small) := Recording(small, 5)],
      work := Verifying(Snap(SlotOf(small), Row(small, 5, None)), Found(small, 5), []))
  }

  ghost function Mixed(small: Name, large: Name): World {
    Uploading(small, large).(rows := map[SlotOf(small) := Row(large, 9, Some(Key(small)))], work := Removing(small, []))
  }

  lemma MeanwhileRuns(small: Name, large: Name)
    requires small != large && SlotOf(small) == SlotOf(large)
    ensures Leads(TwoFiles(small, large), TakenOverMeanwhile(small, large), Mixed(small, large))
  {
    var slot, es := SlotOf(small), TakenOverMeanwhile(small, large);
    var snap := Snap(slot, Row(small, 5, None));
    var w0, w2, end := TwoFiles(small, large), Uploading(small, large), Mixed(small, large);
    var w1 := w0.(work := Putting(snap, Found(small, 5), []));
    assert [snap][1..] == [];
    assert CanHappen(w0, es[0]) && After(w0, es[0]) == w1;
    assert After(w1, es[1]) == w2;
    RecordedMeanwhile(small, large);
    hide After, CanHappen, Leads;
    Then(w1, es[1..], w2, end);
    Then(w0, es, w1, end);
  }

  lemma BestOfSame(a: Found, b: Found)
    requires a.name.ordinal == b.name.ordinal && a.bytes < b.bytes
    ensures Best([a, b]) == map[b.name.ordinal := b]
  {
    assert [a][..0] == [] && [a, b][..1] == [a];
    assert Best([a]) == map[a.name.ordinal := a];
  }

  lemma LargerMeanwhile(small: Name, large: Name, rows: Rows)
    requires small != large && SlotOf(small) == SlotOf(large) && rows == map[SlotOf(small) := Row(large, 9, None)]
    ensures
      var w, e := Uploading(small, large), Record(large.matchId, [Found(small, 5), Found(large, 9)]);
      CanHappen(w, e) && After(w, e) == w.(rows := rows)
  {
    hide CanHappen, After;
    var found := [Found(small, 5), Found(large, 9)];
    BestOfSame(Found(small, 5), Found(large, 9));
    RecordOne(Uploading(small, large), large.matchId, found, Best(found), rows);
  }

  lemma RecordedMeanwhile(small: Name, large: Name)
    requires small != large && SlotOf(small) == SlotOf(large)
    ensures Leads(Uploading(small, large), TakenOverMeanwhile(small, large)[2..], Mixed(small, large))
  {
    hide Leads, Recorded, Best, FilesOf;
    var w, es, end := Uploading(small, large), TakenOverMeanwhile(small, large), Mixed(small, large);
    var v := w.(rows := map[SlotOf(small) := Row(large, 9, None)]);
    LargerMeanwhile(small, large, v.rows);
    assert CanHappen(v, es[3]) && After(v, es[3]) == end;
    Done(end);
    assert es[3..][1..] == [];
    Then(v, es[3..], end, end);
    Then(w, es[2..], v, end);
  }

  /**
   It can happen with every step succeeding: a larger file of the same map is recorded while the
   first one uploads, and the row then names it with the other's key. The sweep reads it as uploaded.
   */
  lemma TakenOverRowServesAnother(small: Name, large: Name)
    requires small != large && SlotOf(small) == SlotOf(large)
    ensures Good(TwoFiles(small, large)) && Happens(TwoFiles(small, large), TakenOverMeanwhile(small, large))
    ensures
      var w := Run(TwoFiles(small, large), TakenOverMeanwhile(small, large));
      && SlotOf(large) in w.rows && w.rows[SlotOf(large)].filename == large && w.rows[SlotOf(large)].key.Some?
      && w.rows[SlotOf(large)].key.value in w.bucket && w.bucket[w.rows[SlotOf(large)].key.value].name == small
  {
    MeanwhileRuns(small, large);
    assert SnapFits(TwoFiles(small, large), TwoFiles(small, large).work.todo[0]);
  }
}
