/**
 What the demo sweep and the recording of demos get done (src/demoOffload.ts, src/demos.ts): each row follows the
 largest file of its map; a finished file is moved and its row written; and what fails leaves it where it is.
 */
module DemoMoves {
  import opened Wrappers
  import opened Demos
  import opened DemoOffload
  import opened DemoLaws

  // ---------- which file a row follows ----------

  /** The largest of the files found for a map, the first of them when two are as large. */
  ghost predicate LargestOf(found: seq<Found>, o: nat, i: nat) {
    && i < |found| && found[i].name.ordinal == o
    && (forall j | 0 <= j < |found| && found[j].name.ordinal == o :: found[j].bytes <= found[i].bytes)
    && (forall j | 0 <= j < i && found[j].name.ordinal == o :: found[j].bytes < found[i].bytes)
  }

  lemma {:induction false} BestIsFirstLargest(found: seq<Found>, o: nat) returns (i: nat)
    ensures o in Best(found) ==> LargestOf(found, o, i) && Best(found)[o] == found[i]
    ensures o !in Best(found) ==> forall j | 0 <= j < |found| :: found[j].name.ordinal != o
    decreases |found|
  {
    i := 0;
    if found != [] {
      var n := |found| - 1;
      i := BestIsFirstLargest(found[..n], o);
      var best := Best(found[..n]);
      if found[n].name.ordinal == o && !(o in best && found[n].bytes <= best[o].bytes) { i := n; }
    }
  }

  /** The row after a file was found for it: the same file grows it, a larger one takes it over and has no key yet. */
  predicate RowFollows(before: Option<Row>, after: Row, d: Found) {
    if before.None? then after == Row(d.name, d.bytes, None)
    else if before.value.filename == d.name then after == Row(d.name, d.bytes, before.value.key)
    else if d.bytes > before.value.bytes then after == Row(d.name, d.bytes, None)
    else after == before.value
  }

  /** Recording a match's files: each map found has its row follow the largest of them, and nothing else changes. */
  lemma RowsFollowTheLargest(rows: Rows, matchId: int, found: seq<Found>, slot: Slot)
    ensures
      var after := Recorded(rows, matchId, Best(found));
      var mine := slot.matchId == matchId && exists j :: 0 <= j < |found| && found[j].name.ordinal == slot.ordinal;
      && (slot in after <==> slot in rows || mine)
      && (!mine && slot in rows ==> after[slot] == rows[slot])
      && (mine ==>
            (exists i: nat :: LargestOf(found, slot.ordinal, i))
            && forall i: nat | LargestOf(found, slot.ordinal, i) ::
                 RowFollows(if slot in rows then Some(rows[slot]) else None, after[slot], found[i]))
  {
    var i := BestIsFirstLargest(found, slot.ordinal);
    forall k: nat | LargestOf(found, slot.ordinal, k) && LargestOf(found, slot.ordinal, i) ensures k == i {}
  }

  // ---------- the move of one row ----------

  /** The row whose turn it is has no key, and the file it names now is on disk and finished. */
  ghost predicate ReadyToMove(w: World, snap: Snap, rest: seq<Snap>, name: Name) {
    && w.work == Turn([snap] + rest) && snap.row.key.None? && snap.slot in w.rows
    && w.rows[snap.slot].filename == name && name in w.files && name in w.finished
  }

  /** The file is in the bucket and the row says so; its disk space is freed when asked. */
  ghost function Moved_(w: World, snap: Snap, rest: seq<Snap>, name: Name, reclaim: bool): World
    requires snap.slot in w.rows && name in w.files
  {
    var key := Key(snap.row.filename);
    w.(bucket := w.bucket[key := Recording(name, w.files[name])],
       rows := w.rows[snap.slot := w.rows[snap.slot].(key := Some(key))],
       files := if reclaim then w.files - {name} else w.files,
       work := Turn(rest))
  }

  lemma UploadBegins(w: World, snap: Snap, rest: seq<Snap>, name: Name, reclaim: bool)
    requires ReadyToMove(w, snap, rest, name)
    ensures CanHappen(w, Look(true, reclaim))
    ensures After(w, Look(true, reclaim)) == w.(work := Putting(snap, Found(name, w.files[name]), rest))
  {
    assert ([snap] + rest)[0] == snap && ([snap] + rest)[1..] == rest;
  }

  /** When upload and check succeed a finished file is moved and its row written, and the file deleted when asked. */
  lemma FinishedFileIsMoved(w: World, snap: Snap, rest: seq<Snap>, name: Name, reclaim: bool)
    requires ReadyToMove(w, snap, rest, name)
    ensures
      var upload := [Look(true, reclaim), PutSettles(true, Some(w.files[name])), HeadSettles(true, reclaim)];
      Leads(w, if reclaim then upload + [RemoveSettles(true)] else upload, Moved_(w, snap, rest, name, reclaim))
  {
    hide Leads;
    UploadBegins(w, snap, rest, name, reclaim);
    var found, key := Found(name, w.files[name]), Key(snap.row.filename);
    var w1 := w.(work := Putting(snap, found, rest));
    var w2 := w1.(bucket := w.bucket[key := Recording(name, found.bytes)], work := Verifying(snap, found, rest));
    var keyed := w2.rows[snap.slot := w2.rows[snap.slot].(key := Some(key))];
    var w3 := w2.(rows := keyed, work := if reclaim then Removing(name, rest) else Turn(rest));
    var upload := [Look(true, reclaim), PutSettles(true, Some(found.bytes)), HeadSettles(true, reclaim)];
    var es := if reclaim then upload + [RemoveSettles(true)] else upload;
    var end := Moved_(w, snap, rest, name, reclaim);
    assert CanHappen(w1, es[1]) && After(w1, es[1]) == w2;
    assert CanHappen(w2, es[2]) && After(w2, es[2]) == w3;
    LastStep(w3, end, name, rest, reclaim);
    hide After, CanHappen, Moved_;
    if reclaim {
      assert es[3..] == [RemoveSettles(true)];
      Done(end);
      assert es[3..][1..] == [];
      Then(w3, es[3..], end, end);
    } else {
      assert es[3..] == [];
      Done(end);
    }
    assert es[2..][1..] == es[3..] && es[1..][1..] == es[2..];
    Then(w2, es[2..], w3, end);
    Then(w1, es[1..], w2, end);
    Then(w, es, w1, end);
  }

  lemma LastStep(w: World, end: World, name: Name, rest: seq<Snap>, reclaim: bool)
    requires w.work == if reclaim then Removing(name, rest) else Turn(rest)
    requires end == w.(files := if reclaim then w.files - {name} else w.files, work := Turn(rest))
    ensures reclaim ==> CanHappen(w, RemoveSettles(true)) && After(w, RemoveSettles(true)) == end
    ensures !reclaim ==> w == end
  {
  }

  /** An upload that fails, or a check that fails or finds another size, leaves the file and its row as they are. */
  lemma FailedMoveLeavesAll(w: World, e: Event)
    requires (w.work.Putting? && e.PutSettles?) || (w.work.Verifying? && e.HeadSettles?)
    requires e.HeadSettles? && e.answered ==>
      !(Key(w.work.snap.row.filename) in w.bucket
        && w.bucket[Key(w.work.snap.row.filename)].bytes == w.work.found.bytes)
    ensures
      var u := After(w, e);
      && u.rows == w.rows && u.files == w.files && u.finished == w.finished && u.pruned == w.pruned
      && (!(e.PutSettles? && e.ok) ==> u.work == Turn(w.work.todo))
  {
  }

  /** A row whose file is gone, still written to, or in the bucket already with no space asked for, is passed over. */
  lemma PassedOver(w: World, snap: Snap, rest: seq<Snap>, quiet: bool, reclaim: bool)
    requires w.work == Turn([snap] + rest)
    ensures After(w, Look(quiet, reclaim)) == w.(work := Turn(rest)) <==>
      || snap.slot !in w.rows || w.rows[snap.slot].filename !in w.files
      || (if snap.row.key.Some? then !reclaim else !quiet)
  {
    assert ([snap] + rest)[0] == snap && ([snap] + rest)[1..] == rest;
    assert Turn(rest) != Idle;
  }

  // ---------- no file goes but when space is asked for, or by its age ----------

  predicate AsksForSpace(e: Event) {
    (e.Look? && e.reclaim) || (e.HeadSettles? && e.reclaim)
  }

  predicate NotReclaiming(w: World) {
    !w.work.Checking? && !w.work.Removing?
  }

  lemma {:induction false} NothingGoesUnasked(w: World, events: seq<Event>, name: Name)
    requires NotReclaiming(w) && name in w.files
    requires forall e | e in events :: !AsksForSpace(e) && e != Prune(name)
    ensures name in Run(w, events).files
    decreases |events|
  {
    if events != [] {
      var e := events[0];
      assert e in events;
      StaysUnasked(w, e, name);
      hide After;
      forall x | x in events[1..] ensures !AsksForSpace(x) && x != Prune(name) { assert x in events; }
      NothingGoesUnasked(After(w, e), events[1..], name);
    }
  }

  lemma StaysUnasked(w: World, e: Event, name: Name)
    requires NotReclaiming(w) && name in w.files && !AsksForSpace(e) && e != Prune(name)
    ensures NotReclaiming(After(w, e)) && name in After(w, e).files
  {
    hide Recorded, Best;
  }
}
