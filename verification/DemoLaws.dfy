/** No recording is lost by the sweep, and exactly which turns of a row can lose one. */
module DemoLaws {
  import opened Wrappers
  import opened Demos
  import opened DemoOffload

  ghost predicate InBucket(bucket: map<Key, Recording>, r: Recording) {
    exists key | key in bucket :: bucket[key] == r
  }

  /** In the bucket whole, under whatever key. */
  ghost predicate Copied(w: World, name: Name) {
    name in w.finished && InBucket(w.bucket, Recording(name, w.finished[name]))
  }

  /** A finished recording is on disk or in the bucket at full size, until its age prunes it. */
  ghost predicate NoneLost(w: World) {
    forall name | name in w.finished && name !in w.pruned :: name in w.files || Copied(w, name)
  }

  /** The object under this key is the one whole copy left of a recording not yet pruned. */
  ghost predicate OnlyCopy(w: World, key: Key) {
    && key in w.bucket
    && var r := w.bucket[key];
       && r.name in w.finished && r.bytes == w.finished[r.name] && r.name !in w.pruned && r.name !in w.files
       && forall k | k in w.bucket && w.bucket[k] == r :: k == key
  }

  /**
   The row's turn is about to upload over the only copy of another recording; or to delete a file
   because the object under the row's key has its size, while no object is a copy of it.
   */
  ghost predicate Endangers(w: World, quiet: bool, reclaim: bool) {
    && w.work.Turn? && w.work.todo != []
    && var snap := w.work.todo[0];
       var found := Resolve(w, snap.slot);
       && found.Some?
       && match snap.row.key
          case None => quiet && OnlyCopy(w, Key(snap.row.filename))
          case Some(key) =>
            && reclaim && Matches(w.bucket, key, found.value) && found.value.name !in w.pruned
            && !InBucket(w.bucket, Recording(found.value.name, found.value.bytes))
  }

  // ---------- no turn that endangers nothing loses anything ----------

  ghost predicate ObjectsFinished(w: World) {
    forall key | key in w.bucket :: w.bucket[key].name in w.finished
  }

  ghost predicate WorkIsSafe(w: World) {
    match w.work
    case Idle => true
    case Turn(_) => true
    case Checking(found, key, _) => Matches(w.bucket, key, found) ==> Copied(w, found.name) || found.name in w.pruned
    case Putting(snap, found, _) =>
      && Whole(w, found) && (found.name in w.files || found.name in w.pruned) && !OnlyCopy(w, Key(snap.row.filename))
    case Verifying(snap, found, _) =>
      Whole(w, found) && Key(snap.row.filename) in w.bucket && w.bucket[Key(snap.row.filename)].name == found.name
    case Removing(name, _) => Copied(w, name) || name in w.pruned
  }

  ghost predicate Kept(w: World) {
    NoneLost(w) && WholeFiles(w) && ObjectsFinished(w) && WorkIsSafe(w)
  }

  predicate IsSweepStep(e: Event) {
    e.Look? || e.PutSettles? || e.HeadSettles? || e.RemoveSettles?
  }

  lemma LookKeeps(w: World, quiet: bool, reclaim: bool)
    requires Kept(w) && CanHappen(w, Look(quiet, reclaim)) && !Endangers(w, quiet, reclaim)
    ensures Kept(After(w, Look(quiet, reclaim)))
  {
  }

  /** The object written over was not the only copy of anything else. */
  lemma PutKeeps(w: World, ok: bool, stored: Option<nat>)
    requires Kept(w) && CanHappen(w, PutSettles(ok, stored))
    ensures Kept(After(w, PutSettles(ok, stored)))
  {
    if w.work.Putting? && stored.Some? {
      var v := After(w, PutSettles(ok, stored));
      var key := Key(w.work.snap.row.filename);
      forall name | name in v.finished && name !in v.pruned ensures name in v.files || Copied(v, name) {
        if name !in w.files {
          var r := Recording(name, w.finished[name]);
          assert InBucket(w.bucket, r);
          var k :| k in w.bucket && w.bucket[k] == r && k != key;
          assert v.bucket[k] == r;
        }
      }
    }
  }

  lemma HeadKeeps(w: World, answered: bool, reclaim: bool)
    requires Kept(w)
    ensures Kept(After(w, HeadSettles(answered, reclaim)))
  {
    var v := After(w, HeadSettles(answered, reclaim));
    HeadTouchesNoFile(w, answered, reclaim);
    SameFilesAndObjects(w, v);
    if w.work.Verifying? { MatchingUploadIsACopy(w); }
    hide NoneLost, WholeFiles, ObjectsFinished, Copied, Keyed, Matches;
  }

  lemma HeadTouchesNoFile(w: World, answered: bool, reclaim: bool)
    ensures
      var v := After(w, HeadSettles(answered, reclaim));
      v.files == w.files && v.bucket == w.bucket && v.finished == w.finished && v.pruned == w.pruned
  {
  }

  lemma SameFilesAndObjects(w: World, v: World)
    requires v.files == w.files && v.bucket == w.bucket && v.finished == w.finished && v.pruned == w.pruned
    ensures NoneLost(w) == NoneLost(v) && WholeFiles(w) == WholeFiles(v) && ObjectsFinished(w) == ObjectsFinished(v)
    ensures forall name :: Copied(v, name) == Copied(w, name)
  {
  }

  lemma MatchingUploadIsACopy(w: World)
    requires w.work.Verifying? && WorkIsSafe(w)
    ensures Matches(w.bucket, Key(w.work.snap.row.filename), w.work.found) ==> Copied(w, w.work.found.name)
  {
    var key, found := Key(w.work.snap.row.filename), w.work.found;
    if Matches(w.bucket, key, found) { assert w.bucket[key] == Recording(found.name, found.bytes); }
  }

  lemma RemoveKeeps(w: World, done: bool)
    requires Kept(w)
    ensures Kept(After(w, RemoveSettles(done)))
  {
  }

  /** Another writer's step: what is finished, copied or gone by age stays so, and a file goes only by age. */
  ghost predicate Aside(w: World, v: World) {
    && v.bucket == w.bucket && (v.work == w.work || v.work.Turn?) && w.pruned <= v.pruned
    && (forall name | name in w.finished :: name in v.finished && v.finished[name] == w.finished[name])
    && (forall name | name in w.files :: name in v.files || name in v.pruned)
    && (forall name | name in v.finished && name !in w.finished :: name in v.files)
  }

  lemma OthersStepAside(w: World, e: Event)
    requires WholeFiles(w) && !IsSweepStep(e)
    ensures Aside(w, After(w, e)) && WholeFiles(After(w, e))
  {
    hide Recorded, Best, Unlinked;
  }

  /** Whatever the database, the game server and the pruning do, a copy in the bucket stays one. */
  lemma AsideKeeps(w: World, v: World)
    requires Kept(w) && Aside(w, v) && WholeFiles(v)
    ensures Kept(v)
  {
    assert forall name | Copied(w, name) :: Copied(v, name);
    if w.work.Putting? && OnlyCopy(v, Key(w.work.snap.row.filename)) {
      var r := w.bucket[Key(w.work.snap.row.filename)];
      assert r.name in w.finished;
    }
  }

  lemma OthersKeep(w: World, e: Event)
    requires Kept(w) && !IsSweepStep(e)
    ensures Kept(After(w, e))
  {
    hide After, Aside;
    OthersStepAside(w, e);
    AsideKeeps(w, After(w, e));
  }

  lemma StepKeeps(w: World, e: Event)
    requires Kept(w) && CanHappen(w, e) && (e.Look? ==> !Endangers(w, e.quiet, e.reclaim))
    ensures Kept(After(w, e))
  {
    hide Kept, After, CanHappen, Endangers;
    match e
    case Look(quiet, reclaim) => LookKeeps(w, quiet, reclaim);
    case PutSettles(ok, stored) => PutKeeps(w, ok, stored);
    case HeadSettles(answered, reclaim) => HeadKeeps(w, answered, reclaim);
    case RemoveSettles(done) => RemoveKeeps(w, done);
    case _ => OthersKeep(w, e);
  }

  ghost predicate Unendangered(w: World, events: seq<Event>)
    decreases |events|
  {
    events == [] || (
      var e := events[0];
      (e.Look? ==> !Endangers(w, e.quiet, e.reclaim)) && Unendangered(After(w, e), events[1..]))
  }

  lemma {:induction false} RunKeeps(w: World, events: seq<Event>)
    requires Kept(w) && Happens(w, events) && Unendangered(w, events)
    ensures Kept(Run(w, events))
    decreases |events|
  {
    hide Kept, After, CanHappen, Endangers;
    if events != [] {
      StepKeeps(w, events[0]);
      RunKeeps(After(w, events[0]), events[1..]);
    }
  }

  // ---------- exactly the turns that can lose a recording ----------

  predicate NoLook(events: seq<Event>) {
    forall e | e in events :: !e.Look?
  }

  /** Some way for the turn just begun to go on, before the next row's, loses a finished recording. */
  ghost predicate CanLose(w: World) {
    exists events :: NoLook(events) && Happens(w, events) && !NoneLost(Run(w, events))
  }

  lemma {:induction false} NoLookIsUnendangered(w: World, events: seq<Event>)
    requires NoLook(events)
    ensures Unendangered(w, events)
    decreases |events|
  {
    hide After, Endangers;
    if events != [] { NoLookIsUnendangered(After(w, events[0]), events[1..]); }
  }

  /** Any body stored under the key loses the recording that was there alone. */
  lemma UploadCanLose(w: World, quiet: bool, reclaim: bool)
    requires Kept(w) && Endangers(w, quiet, reclaim) && w.work.todo[0].row.key.None?
    ensures CanLose(After(w, Look(quiet, reclaim)))
  {
    var v := After(w, Look(quiet, reclaim));
    var e := PutSettles(true, Some(v.work.found.bytes));
    var u := After(v, e);
    var lost := w.bucket[Key(v.work.snap.row.filename)].name;
    assert lost in u.finished && lost !in u.pruned && lost !in u.files;
    assert !InBucket(u.bucket, Recording(lost, u.finished[lost]));
    RunOn(v, e, []);
    assert NoLook([e] + []);
  }

  /** The size agrees, so the file is removed; if it was not finished yet it is by then. */
  lemma ReclaimCanLose(w: World, quiet: bool, reclaim: bool)
    requires Kept(w) && Endangers(w, quiet, reclaim) && w.work.todo[0].row.key.Some?
    ensures CanLose(After(w, Look(quiet, reclaim)))
  {
    var v := After(w, Look(quiet, reclaim));
    var name := v.work.found.name;
    var e1, e2, e3 := HeadSettles(true, true), Finish(name), RemoveSettles(true);
    var v1 := After(v, e1);
    assert v1.work == Removing(name, v.work.todo);
    var v2 := After(v1, e2);
    assert name in v2.finished && v2.finished[name] == v.work.found.bytes;
    var v3 := After(v2, e3);
    assert name !in v3.files && !NoneLost(v3);
    RunOn(v2, e3, []);
    RunOn(v1, e2, [e3] + []);
    RunOn(v, e1, [e2] + ([e3] + []));
    assert NoLook([e1] + ([e2] + ([e3] + [])));
  }

  /**
   The promise holds of a row's turn, whatever fails in it and whoever else writes meanwhile, exactly when it
   endangers nothing.
   */
  lemma TurnCanLoseIffEndangers(w: World, quiet: bool, reclaim: bool)
    requires Kept(w) && CanHappen(w, Look(quiet, reclaim))
    ensures CanLose(After(w, Look(quiet, reclaim))) <==> Endangers(w, quiet, reclaim)
  {
    if Endangers(w, quiet, reclaim) {
      if w.work.todo[0].row.key.None? { UploadCanLose(w, quiet, reclaim); } else { ReclaimCanLose(w, quiet, reclaim); }
    } else {
      var v := After(w, Look(quiet, reclaim));
      LookKeeps(w, quiet, reclaim);
      forall events | NoLook(events) && Happens(v, events) ensures NoneLost(Run(v, events)) {
        NoLookIsUnendangered(v, events);
        RunKeeps(v, events);
      }
    }
  }

  /**
   Over any number of sweeps, whatever uploads, checks or deletes fail: while no turn endangers a recording,
   none is lost.
   */
  lemma NothingIsLostUnendangered(events: seq<Event>, name: Name)
    requires Happens(Empty, events) && Unendangered(Empty, events)
    ensures
      var w := Run(Empty, events);
      && (name in w.finished && name !in w.pruned ==> name in w.files || Copied(w, name))
      && (name in w.finished && name in w.files ==> w.files[name] == w.finished[name])
  {
    assert Kept(Empty);
    RunKeeps(Empty, events);
  }

  // ---------- rows whose turn finds their own file ----------

  /**
   At its turn a row without a key still names the file it was selected for, and a key is that of the file the
   row names now.
   */
  predicate FindsItsOwn(w: World, e: Event) {
    e.Look? && w.work.Turn? && w.work.todo != [] ==>
      var snap := w.work.todo[0];
      var found := Resolve(w, snap.slot);
      found.Some? ==>
        match snap.row.key
        case None => e.quiet ==> found.value.name == snap.row.filename
        case Some(key) => e.reclaim ==> key == Key(found.value.name)
  }

  ghost predicate AllFindTheirOwn(w: World, events: seq<Event>)
    decreases |events|
  {
    events == [] || (FindsItsOwn(w, events[0]) && AllFindTheirOwn(After(w, events[0]), events[1..]))
  }

  ghost predicate OwnUpload(w: World) {
    w.work.Putting? ==> w.work.found.name == w.work.snap.row.filename
  }

  lemma OwnObjectIsACopy(w: World, key: Key, found: Found)
    requires OwnObjects(w)
    ensures Matches(w.bucket, key, found) && key == Key(found.name) ==>
      InBucket(w.bucket, Recording(found.name, found.bytes))
  {
    if Matches(w.bucket, key, found) && key == Key(found.name) {
      assert w.bucket[key] == Recording(found.name, found.bytes);
    }
  }

  /** An object under the file's own key that has its size is its copy. */
  lemma EndangeredIsNotItsOwn(w: World, quiet: bool, reclaim: bool)
    requires Kept(w) && OwnObjects(w) && Endangers(w, quiet, reclaim)
    ensures !FindsItsOwn(w, Look(quiet, reclaim))
  {
    var snap := w.work.todo[0];
    if snap.row.key.Some? { OwnObjectIsACopy(w, snap.row.key.value, Resolve(w, snap.slot).value); }
  }

  lemma OwnStep(w: World, e: Event)
    requires OwnObjects(w) && OwnUpload(w) && FindsItsOwn(w, e)
    ensures OwnObjects(After(w, e)) && OwnUpload(After(w, e))
  {
    hide Recorded, Best, Unlinked, Keyed, Matches;
  }

  lemma {:induction false} OwnRun(w: World, events: seq<Event>)
    requires Kept(w) && OwnObjects(w) && OwnUpload(w) && Happens(w, events) && AllFindTheirOwn(w, events)
    ensures Kept(Run(w, events)) && OwnObjects(Run(w, events))
    decreases |events|
  {
    hide Kept, After, CanHappen, Endangers, OwnUpload, OwnObjects, FindsItsOwn;
    if events != [] {
      var e := events[0];
      OwnStep(w, e);
      if e.Look? && Endangers(w, e.quiet, e.reclaim) { EndangeredIsNotItsOwn(w, e.quiet, e.reclaim); }
      StepKeeps(w, e);
      OwnRun(After(w, events[0]), events[1..]);
    }
  }

  /**
   Whatever uploads, checks or deletes fail, over any number of sweeps, and whatever takes rows over
   while their uploads run: a finished recording is on disk, or in the bucket at full size under its
   own key, until its age prunes it, provided every turn of a row finds that row's own file.
   */
  lemma NoDemoIsLost(events: seq<Event>, name: Name)
    requires Happens(Empty, events) && AllFindTheirOwn(Empty, events)
    ensures
      var w := Run(Empty, events);
      && (name in w.finished && name !in w.pruned ==> name in w.files || Stored(w, name))
      && (name in w.finished && name in w.files ==> w.files[name] == w.finished[name])
  {
    assert Kept(Empty);
    OwnRun(Empty, events);
  }

  /**
   The first row's turn follows the SELECT at once, so it names the file it was selected for: another
   file can come between for a later row only, while an earlier one awaits.
   */
  lemma FirstRowFindsItsOwn(w: World, matchId: int, todo: seq<Snap>, quiet: bool, reclaim: bool)
    requires CanHappen(w, Select(matchId, todo)) && todo != [] && todo[0].row.key.None?
    ensures FindsItsOwn(After(w, Select(matchId, todo)), Look(quiet, reclaim))
  {
    assert todo[0] in todo;
  }

  // ---------- a recording that is lost ----------

  ghost predicate Leads(w: World, events: seq<Event>, v: World) {
    Happens(w, events) && Run(w, events) == v
  }

  lemma Done(w: World)
    ensures Leads(w, [], w)
  {
  }

  lemma Then(w: World, events: seq<Event>, v: World, end: World)
    requires events != [] && CanHappen(w, events[0]) && After(w, events[0]) == v && Leads(v, events[1..], end)
    ensures Leads(w, events, end)
  {
    hide After, CanHappen;
  }

  lemma {:induction false} ThenBoth(w: World, one: seq<Event>, v: World, two: seq<Event>, end: World)
    requires Leads(w, one, v) && Leads(v, two, end)
    ensures Leads(w, one + two, end)
    decreases |one|
  {
    hide After, CanHappen;
    if one == [] {
      assert one + two == two;
    } else {
      assert (one + two)[1..] == one[1..] + two;
      ThenBoth(After(w, one[0]), one[1..], v, two, end);
    }
  }

  lemma GrowOne(w: World, name: Name, bytes: nat)
    requires !w.work.Turn? && name !in w.finished
    ensures CanHappen(w, Grow(name, bytes)) && After(w, Grow(name, bytes)) == w.(files := w.files[name := bytes])
  {
  }

  lemma FinishOne(w: World, name: Name)
    requires !w.work.Turn? && name !in w.finished && name in w.files
    ensures CanHappen(w, Finish(name)) && After(w, Finish(name)) == w.(finished := w.finished[name := w.files[name]])
  {
  }

  /** Each ordinal has one file among those recorded, or its largest. */
  lemma RecordOne(w: World, matchId: int, found: seq<Found>, best: map<nat, Found>, rows: Rows)
    requires !w.work.Turn? && FilesOf(w.files, matchId, found) && Best(found) == best
    requires rows.Keys == w.rows.Keys + set o | o in best :: Slot(matchId, o)
    requires forall slot | slot in rows && slot.matchId == matchId && slot.ordinal in best ::
      rows[slot] == Upserted(RowAt(w.rows, slot), best[slot.ordinal])
    requires forall slot | slot in rows && !(slot.matchId == matchId && slot.ordinal in best) ::
      rows[slot] == w.rows[slot]
    ensures CanHappen(w, Record(matchId, found)) && After(w, Record(matchId, found)) == w.(rows := rows)
  {
    hide FilesOf, Best;
  }

  /** A row's turn that ends in an upload. */
  lemma LookOne(w: World, name: Name)
    requires w.work.Turn? && w.work.todo != [] && w.work.todo[0].row.key.None?
    requires w.work.todo[0].slot in w.rows && w.rows[w.work.todo[0].slot].filename == name
    requires name in w.files && name in w.finished
    ensures CanHappen(w, Look(true, true))
    ensures After(w, Look(true, true)) ==
      w.(work := Putting(w.work.todo[0], Found(name, w.files[name]), w.work.todo[1..]))
  {
  }

  /** The upload stores the whole file, the check agrees, the row is written and the file deleted. */
  const Moved := [HeadSettles(true, true), RemoveSettles(true)]

  ghost function MovedTo(w: World): World
    requires w.work.Putting? && w.work.snap.slot in w.rows
  {
    var snap, found := w.work.snap, w.work.found;
    w.(files := w.files - {found.name},
       bucket := w.bucket[Key(snap.row.filename) := Recording(found.name, found.bytes)],
       rows := w.rows[snap.slot := w.rows[snap.slot].(key := Some(Key(snap.row.filename)))], work := Turn(w.work.todo))
  }

  lemma MoveRuns(w: World)
    requires w.work.Putting? && w.work.snap.slot in w.rows
    ensures Leads(w, [PutSettles(true, Some(w.work.found.bytes))] + Moved, MovedTo(w))
  {
    var snap, found, todo := w.work.snap, w.work.found, w.work.todo;
    var es, key := [PutSettles(true, Some(found.bytes))] + Moved, Key(snap.row.filename);
    var w1 := w.(bucket := w.bucket[key := Recording(found.name, found.bytes)], work := Verifying(snap, found, todo));
    var w2 := w1.(rows := w.rows[snap.slot := w.rows[snap.slot].(key := Some(key))],
                  work := Removing(found.name, todo));
    var end := MovedTo(w);
    assert CanHappen(w, es[0]) && After(w, es[0]) == w1;
    assert CanHappen(w1, es[1]) && After(w1, es[1]) == w2;
    assert CanHappen(w2, es[2]) && After(w2, es[2]) == end;
    hide After, CanHappen, Leads, MovedTo;
    Done(end);
    assert es[2..][1..] == [];
    Then(w2, es[2..], end, end);
    Then(w1, es[1..], w2, end);
    Then(w, es, w1, end);
  }

  /** A match of two maps, and two files of its second. */
  ghost predicate OneMatch(other: Name, small: Name, large: Name) {
    && other.matchId == small.matchId && other.ordinal < small.ordinal
    && small != large && SlotOf(small) == SlotOf(large)
  }

  /** The first map's upload is under way; the second map's row, read with it, names the smaller file. */
  ghost function Uploading(other: Name, small: Name): World {
    var o, s := Row(other, 1, None), Row(small, 5, None);
    World(map[other := 1][small := 5], map[], map[SlotOf(other) := o][SlotOf(small) := s],
          Putting(Snap(SlotOf(other), o), Found(other, 1), [Snap(SlotOf(small), s)]), map[other := 1], {})
  }

  ghost function Begins(other: Name, small: Name): seq<Event> {
    [Grow(other, 1), Finish(other), Grow(small, 5), Record(small.matchId, [Found(other, 1), Found(small, 5)]),
     Select(small.matchId, [Snap(SlotOf(other), Row(other, 1, None)), Snap(SlotOf(small), Row(small, 5, None))]),
     Look(true, true)]
  }

  /** Meanwhile the larger file takes the second row over. */
  ghost function TakesOver(other: Name, small: Name, large: Name): seq<Event> {
    [Grow(large, 6), Record(small.matchId, [Found(other, 1), Found(small, 5), Found(large, 6)]), Grow(large, 9),
     Finish(large)]
  }

  ghost function Overtaken(other: Name, small: Name, large: Name): World {
    var w := Uploading(other, small);
    w.(files := w.files[large := 6][large := 9], rows := w.rows[SlotOf(small) := Row(large, 6, None)],
       finished := w.finished[large := 9])
  }

  /** The second row's turn: the larger file under the smaller one's key. */
  ghost function Mistaken(other: Name, small: Name, large: Name): World {
    var w := MovedTo(Overtaken(other, small, large));
    w.(work := Putting(Snap(SlotOf(small), Row(small, 5, None)), Found(large, 9), []))
  }

  ghost function BetweenSweeps(other: Name, small: Name, large: Name): World {
    MovedTo(Mistaken(other, small, large)).(work := Idle)
  }

  /** The smaller has grown, and takes the row back. */
  ghost function TakesBack(small: Name): seq<Event> {
    [Grow(small, 7), Record(small.matchId, [Found(small, 7)]), Finish(small)]
  }

  ghost function Regrown(other: Name, small: Name, large: Name): World {
    var w := BetweenSweeps(other, small, large);
    w.(files := w.files[small := 7], rows := w.rows[SlotOf(small) := Row(small, 7, None)],
       finished := w.finished[small := 7])
  }

  ghost function SweepsAgain(other: Name, small: Name): seq<Event> {
    [Select(small.matchId,
            [Snap(SlotOf(other), Row(other, 1, Some(Key(other)))), Snap(SlotOf(small), Row(small, 7, None))]),
     Look(true, true), Look(true, true)]
  }

  ghost function UploadsOver(other: Name, small: Name, large: Name): World {
    Regrown(other, small, large).(work := Putting(Snap(SlotOf(small), Row(small, 7, None)), Found(small, 7), []))
  }

  // ---------- that run, part by part ----------

  lemma BestOfTwo(a: Found, b: Found)
    requires a.name.ordinal != b.name.ordinal
    ensures Best([a]) == map[a.name.ordinal := a]
    ensures Best([a, b]) == map[a.name.ordinal := a][b.name.ordinal := b]
  {
    assert [a][..0] == [] && [a, b][..1] == [a];
  }

  lemma BestOfThree(a: Found, b: Found, c: Found)
    requires a.name.ordinal != b.name.ordinal == c.name.ordinal && b.bytes < c.bytes
    ensures Best([a, b, c]) == map[a.name.ordinal := a][c.name.ordinal := c]
  {
    BestOfTwo(a, b);
    assert [a, b, c][..2] == [a, b];
  }

  lemma BeginsRuns(other: Name, small: Name, large: Name)
    requires OneMatch(other, small, large)
    ensures Leads(Empty, Begins(other, small), Uploading(other, small))
  {
    var es, end := Begins(other, small), Uploading(other, small);
    var o, s := SlotOf(other), SlotOf(small);
    var w1 := Empty.(files := map[other := 1]);
    var w2 := w1.(finished := map[other := 1]);
    var w3 := w2.(files := map[other := 1][small := 5]);
    var w4 := w3.(rows := end.rows);
    var w5 := w4.(work := Turn([Snap(o, end.rows[o]), Snap(s, end.rows[s])]));
    GrowOne(Empty, other, 1);
    FinishOne(w1, other);
    GrowOne(w2, small, 5);
    BestOfTwo(Found(other, 1), Found(small, 5));
    var found := [Found(other, 1), Found(small, 5)];
    RecordOne(w3, small.matchId, found, Best(found), end.rows);
    SelectOne(w4, small.matchId, w5.work.todo);
    LookOne(w5, other);
    assert w5.work.todo[1..] == [Snap(s, end.rows[s])];
    hide After, CanHappen, Leads;
    Done(end);
    Then(w5, es[5..], end, end);
    Then(w4, es[4..], w5, end);
    Then(w3, es[3..], w4, end);
    Then(w2, es[2..], w3, end);
    Then(w1, es[1..], w2, end);
    Then(Empty, es, w1, end);
  }

  lemma SelectOne(w: World, matchId: int, todo: seq<Snap>)
    requires w.work.Idle? && RowsOf(w.rows, matchId, todo)
    ensures CanHappen(w, Select(matchId, todo)) && After(w, Select(matchId, todo)) == w.(work := Turn(todo))
  {
  }

  /** The step in which the larger file takes the row over. */
  lemma LargerRecorded(other: Name, small: Name, large: Name, w: World)
    requires OneMatch(other, small, large) && w == Uploading(other, small).(files := w.files)
    requires w.files == Uploading(other, small).files[large := 6]
    ensures
      var e := Record(small.matchId, [Found(other, 1), Found(small, 5), Found(large, 6)]);
      CanHappen(w, e) && After(w, e) == w.(rows := w.rows[SlotOf(small) := Row(large, 6, None)])
  {
    hide After, CanHappen;
    var found := [Found(other, 1), Found(small, 5), Found(large, 6)];
    BestOfThree(Found(other, 1), Found(small, 5), Found(large, 6));
    RecordOne(w, small.matchId, found, Best(found), w.rows[SlotOf(small) := Row(large, 6, None)]);
  }

  lemma TakesOverRuns(other: Name, small: Name, large: Name)
    requires OneMatch(other, small, large)
    ensures Leads(Uploading(other, small), TakesOver(other, small, large), Overtaken(other, small, large))
  {
    hide After, CanHappen, Leads, Best, FilesOf;
    var es, w, end := TakesOver(other, small, large), Uploading(other, small), Overtaken(other, small, large);
    var w1 := w.(files := w.files[large := 6]);
    var w2 := w1.(rows := w1.rows[SlotOf(small) := Row(large, 6, None)]);
    var w3 := w2.(files := w2.files[large := 9]);
    GrowOne(w, large, 6);
    LargerRecorded(other, small, large, w1);
    GrowOne(w2, large, 9);
    FinishOne(w3, large);
    Done(end);
    assert es[3..][1..] == [];
    Then(w3, es[3..], end, end);
    Then(w2, es[2..], w3, end);
    Then(w1, es[1..], w2, end);
    Then(w, es, w1, end);
  }

  lemma MistakenRuns(other: Name, small: Name, large: Name)
    requires OneMatch(other, small, large)
    ensures Leads(MovedTo(Overtaken(other, small, large)), [Look(true, true)], Mistaken(other, small, large))
  {
    var w, end := MovedTo(Overtaken(other, small, large)), Mistaken(other, small, large);
    LookOne(w, large);
    assert w.work.todo[1..] == [];
    hide After, CanHappen, Leads;
    Done(end);
    Then(w, [Look(true, true)], end, end);
  }

  lemma SweepEnds(w: World)
    requires w.work == Turn([])
    ensures Leads(w, [Look(true, true)], w.(work := Idle))
  {
    Done(w.(work := Idle));
    assert After(w, Look(true, true)) == w.(work := Idle);
    Then(w, [Look(true, true)], w.(work := Idle), w.(work := Idle));
  }

  /** And the step in which the smaller one takes it back. */
  lemma SmallerRecorded(other: Name, small: Name, large: Name, w: World)
    requires OneMatch(other, small, large) && w == BetweenSweeps(other, small, large).(files := w.files)
    requires w.files == BetweenSweeps(other, small, large).files[small := 7]
    ensures
      var e := Record(small.matchId, [Found(small, 7)]);
      CanHappen(w, e) && After(w, e) == w.(rows := w.rows[SlotOf(small) := Row(small, 7, None)])
  {
    hide After, CanHappen;
    BestOfTwo(Found(small, 7), Found(other, 1));
    var rows := w.rows[SlotOf(small) := Row(small, 7, None)];
    RecordOne(w, small.matchId, [Found(small, 7)], Best([Found(small, 7)]), rows);
  }

  lemma TakesBackRuns(other: Name, small: Name, large: Name)
    requires OneMatch(other, small, large)
    ensures Leads(BetweenSweeps(other, small, large), TakesBack(small), Regrown(other, small, large))
  {
    hide After, CanHappen, Leads, Best, FilesOf, BetweenSweeps;
    var es, w, end := TakesBack(small), BetweenSweeps(other, small, large), Regrown(other, small, large);
    var w1 := w.(files := w.files[small := 7]);
    var w2 := w1.(rows := w1.rows[SlotOf(small) := Row(small, 7, None)]);
    BetweenIs(other, small, large);
    GrowOne(w, small, 7);
    SmallerRecorded(other, small, large, w1);
    FinishOne(w2, small);
    Done(end);
    assert es[2..][1..] == [];
    Then(w2, es[2..], end, end);
    Then(w1, es[1..], w2, end);
    Then(w, es, w1, end);
  }

  lemma BetweenIs(other: Name, small: Name, large: Name)
    requires OneMatch(other, small, large)
    ensures
      var w := BetweenSweeps(other, small, large);
      && w.work.Idle? && small !in w.finished && other !in w.files && large !in w.files
      && w.rows.Keys == {SlotOf(other), SlotOf(small)}
      && w.rows[SlotOf(other)] == Row(other, 1, Some(Key(other)))
  {
  }

  lemma AgainSelected(other: Name, small: Name, large: Name, first: Snap, second: Snap)
    requires OneMatch(other, small, large)
    requires first == Snap(SlotOf(other), Row(other, 1, Some(Key(other))))
    requires second == Snap(SlotOf(small), Row(small, 7, None))
    ensures RowsOf(Regrown(other, small, large).rows, small.matchId, [first, second])
  {
    hide BetweenSweeps;
    BetweenIs(other, small, large);
  }

  /** The first row has its key and no file left: it is passed over. */
  lemma SweepsAgainRuns(other: Name, small: Name, large: Name)
    requires OneMatch(other, small, large)
    ensures Leads(Regrown(other, small, large), SweepsAgain(other, small), UploadsOver(other, small, large))
  {
    hide After, CanHappen, Leads, RowsOf, BetweenSweeps;
    var es, w, end := SweepsAgain(other, small), Regrown(other, small, large), UploadsOver(other, small, large);
    var first, second := Snap(SlotOf(other), Row(other, 1, Some(Key(other)))), Snap(SlotOf(small), Row(small, 7, None));
    var w1 := w.(work := Turn([first, second]));
    var w2 := w.(work := Turn([second]));
    BetweenIs(other, small, large);
    AgainSelected(other, small, large, first, second);
    SelectOne(w, small.matchId, [first, second]);
    assert [first, second][1..] == [second] && [second][1..] == [];
    PassOne(w1);
    LookOne(w2, small);
    Done(end);
    assert es[2..][1..] == [];
    Then(w2, es[2..], end, end);
    Then(w1, es[1..], w2, end);
    Then(w, es, w1, end);
  }

  lemma PassOne(w: World)
    requires w.work.Turn? && w.work.todo != [] && w.work.todo[0].row.key.Some? && Resolve(w, w.work.todo[0].slot).None?
    ensures CanHappen(w, Look(true, true)) && After(w, Look(true, true)) == w.(work := Turn(w.work.todo[1..]))
  {
  }

  ghost function FirstSweep(other: Name, small: Name, large: Name): seq<Event> {
    Begins(other, small) + TakesOver(other, small, large) + ([PutSettles(true, Some(1))] + Moved) + [Look(true, true)]
    + ([PutSettles(true, Some(9))] + Moved) + [Look(true, true)]
  }

  ghost function SecondSweep(other: Name, small: Name): seq<Event> {
    TakesBack(small) + SweepsAgain(other, small) + [PutSettles(true, Some(7))]
  }

  lemma FirstSweepRuns(other: Name, small: Name, large: Name)
    requires OneMatch(other, small, large)
    ensures Leads(Empty, FirstSweep(other, small, large), BetweenSweeps(other, small, large))
  {
    BeginsRuns(other, small, large);
    TakesOverRuns(other, small, large);
    MoveRuns(Overtaken(other, small, large));
    MistakenRuns(other, small, large);
    MoveRuns(Mistaken(other, small, large));
    SweepEnds(MovedTo(Mistaken(other, small, large)));
    hide After, CanHappen, Leads;
    var a, b, c := Begins(other, small), TakesOver(other, small, large), [PutSettles(true, Some(1))] + Moved;
    var d, e, f := [Look(true, true)], [PutSettles(true, Some(9))] + Moved, [Look(true, true)];
    var two, three := Overtaken(other, small, large), MovedTo(Overtaken(other, small, large));
    var four, five := Mistaken(other, small, large), MovedTo(Mistaken(other, small, large));
    ThenBoth(Empty, a, Uploading(other, small), b, two);
    ThenBoth(Empty, a + b, two, c, three);
    ThenBoth(Empty, a + b + c, three, d, four);
    ThenBoth(Empty, a + b + c + d, four, e, five);
    ThenBoth(Empty, a + b + c + d + e, five, f, BetweenSweeps(other, small, large));
  }

  lemma SecondSweepRuns(other: Name, small: Name, large: Name)
    requires OneMatch(other, small, large)
    ensures
      var w, v := UploadsOver(other, small, large), After(UploadsOver(other, small, large), PutSettles(true, Some(7)));
      && Leads(BetweenSweeps(other, small, large), SecondSweep(other, small), v)
      && v.files == w.files && v.finished == w.finished && v.pruned == w.pruned
      && v.bucket == w.bucket[Key(small) := Recording(small, 7)]
  {
    TakesBackRuns(other, small, large);
    SweepsAgainRuns(other, small, large);
    var w := UploadsOver(other, small, large);
    var e, v := PutSettles(true, Some(7)), After(w, PutSettles(true, Some(7)));
    assert CanHappen(w, e);
    assert w.work.snap.row.filename == small && w.work.found == Found(small, 7);
    hide CanHappen, Leads, UploadsOver;
    Done(v);
    Then(w, [e], v, v);
    var mid := BetweenSweeps(other, small, large);
    ThenBoth(mid, TakesBack(small), Regrown(other, small, large), SweepsAgain(other, small), w);
    ThenBoth(mid, TakesBack(small) + SweepsAgain(other, small), w, [e], v);
  }

  /**
   It does happen, with every upload and check succeeding and nothing pruned. A match has two files of
   its second map, whose row names the smaller. While the first map's file uploads, the larger one is
   recorded and takes that row over; at the row's turn it is uploaded under the smaller one's key. The
   smaller file, grown since, takes the row back and is uploaded over it.
   */
  lemma OnlyRecordingIsLost(other: Name, small: Name, large: Name)
    requires OneMatch(other, small, large)
    ensures
      var events := FirstSweep(other, small, large) + SecondSweep(other, small);
      var w := Run(Empty, events);
      && Happens(Empty, events)
      && large in w.finished && large !in w.pruned && large !in w.files
      && forall key | key in w.bucket :: w.bucket[key].name != large
  {
    FirstSweepRuns(other, small, large);
    SecondSweepRuns(other, small, large);
    var w, mid := UploadsOver(other, small, large), BetweenSweeps(other, small, large);
    var v := After(w, PutSettles(true, Some(7)));
    ThenBoth(Empty, FirstSweep(other, small, large), mid, SecondSweep(other, small), v);
    LargeIsGone(other, small, large);
  }

  lemma LargeIsGone(other: Name, small: Name, large: Name)
    requires OneMatch(other, small, large)
    ensures
      var w := UploadsOver(other, small, large);
      && large in w.finished && large !in w.pruned && large !in w.files
      && forall key | key in w.bucket && key != Key(small) :: w.bucket[key].name == other
  {
  }
}
