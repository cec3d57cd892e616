/**
 The move of finished demos to the bucket (src/demoOffload.ts), await by await:
 upload, verify, record, then delete. Recording, pruning and the game server go
 on at every await, and only there. One sweep runs at a time.
 */
module DemoOffload {
  import opened Wrappers
  import opened Demos

  /** What an object holds: the file it was read from and how much of it was stored. */
  datatype Recording = Recording(name: Name, bytes: nat)

  /** A row as the SELECT of offloadMatchDemos read it. */
  datatype Snap = Snap(slot: Slot, row: Row)

  datatype Work =
    | Idle
    | Turn(todo: seq<Snap>)
    | Checking(found: Found, key: Key, todo: seq<Snap>)
    | Putting(snap: Snap, found: Found, todo: seq<Snap>)
    | Verifying(snap: Snap, found: Found, todo: seq<Snap>)
    | Removing(name: Name, todo: seq<Snap>)

  /**
   Files on disk, objects in the bucket, the rows, and the sweep. `finished` is the full size of
   every recording that is over; `pruned` are the names deleted for their age.
   */
  datatype World = World(
    files: map<Name, nat>, bucket: map<Key, Recording>, rows: Rows, work: Work,
    finished: map<Name, nat>, pruned: set<Name>)

  datatype Event =
    | Select(matchId: int, todo: seq<Snap>)
    | Look(quiet: bool, reclaim: bool)
    | PutSettles(ok: bool, stored: Option<nat>)
    | HeadSettles(answered: bool, reclaim: bool)
    | RemoveSettles(done: bool)
    | Record(matchId: int, found: seq<Found>)
    | Prune(name: Name)
    | Grow(name: Name, bytes: nat)
    | Finish(name: Name)

  /** resolveDemoPath: the file the row names now, if it is there. */
  function Resolve(w: World, slot: Slot): Option<Found> {
    if slot in w.rows && w.rows[slot].filename in w.files then
      Some(Found(w.rows[slot].filename, w.files[w.rows[slot].filename]))
    else None
  }

  /** The start of a row's turn, up to its first await. */
  function NextTurn(todo: seq<Snap>, found: Option<Found>, quiet: bool, reclaim: bool): Work {
    if todo == [] then Idle
    else if todo[0].row.key.Some? then
      if found.Some? && reclaim then Checking(found.value, todo[0].row.key.value, todo[1..]) else Turn(todo[1..])
    else if found.None? || !quiet then Turn(todo[1..])
    else Putting(todo[0], found.value, todo[1..])
  }

  function Looked(w: World, quiet: bool, reclaim: bool): Work
    requires w.work.Turn?
  {
    var todo := w.work.todo;
    NextTurn(todo, if todo == [] then None else Resolve(w, todo[0].slot), quiet, reclaim)
  }

  function Put(w: World, stored: Option<nat>): map<Key, Recording>
    requires w.work.Putting?
  {
    if stored.None? then w.bucket
    else w.bucket[Key(w.work.snap.row.filename) := Recording(w.work.found.name, stored.value)]
  }

  predicate Matches(bucket: map<Key, Recording>, key: Key, found: Found) {
    key in bucket && bucket[key].bytes == found.bytes
  }

  /** `UPDATE match_demos SET r2_key`, by match and ordinal. */
  function Keyed(rows: Rows, slot: Slot, key: Key): Rows {
    if slot in rows then rows[slot := rows[slot].(key := Some(key))] else rows
  }

  function After(w: World, e: Event): World {
    match e
    case Select(_, todo) => if w.work.Idle? then w.(work := Turn(todo)) else w
    case Look(quiet, reclaim) => if w.work.Turn? then w.(work := Looked(w, quiet, reclaim)) else w
    case PutSettles(ok, stored) =>
      if w.work.Putting? then
        w.(bucket := Put(w, stored), work := if ok then Verifying(w.work.snap, w.work.found, w.work.todo)
                                             else Turn(w.work.todo))
      else w
    case HeadSettles(answered, reclaim) =>
      if w.work.Checking? then
        if answered && Matches(w.bucket, w.work.key, w.work.found) then
          w.(work := Removing(w.work.found.name, w.work.todo))
        else w.(work := Turn(w.work.todo))
      else if w.work.Verifying? then
        var key := Key(w.work.snap.row.filename);
        if answered && Matches(w.bucket, key, w.work.found) then
          w.(rows := Keyed(w.rows, w.work.snap.slot, key),
             work := if reclaim then Removing(w.work.found.name, w.work.todo) else Turn(w.work.todo))
        else w.(work := Turn(w.work.todo))
      else w
    case RemoveSettles(done) =>
      if w.work.Removing? then
        w.(files := if done then w.files - {w.work.name} else w.files, work := Turn(w.work.todo))
      else w
    case Record(matchId, found) => w.(rows := Recorded(w.rows, matchId, Best(found)))
    case Prune(name) => w.(files := w.files - {name}, rows := Unlinked(w.rows, name), pruned := w.pruned + {name})
    case Grow(name, bytes) => if name in w.finished then w else w.(files := w.files[name := bytes])
    case Finish(name) =>
      if name in w.files && name !in w.finished then w.(finished := w.finished[name := w.files[name]]) else w
  }

  /** A match's rows as they stand, in the order of their ordinals. */
  ghost predicate RowsOf(rows: Rows, matchId: int, todo: seq<Snap>) {
    && (forall s | s in todo :: s.slot.matchId == matchId && s.slot in rows && rows[s.slot] == s.row)
    && (forall slot | slot in rows && slot.matchId == matchId :: Snap(slot, rows[slot]) in todo)
    && (forall i, j | 0 <= i < j < |todo| :: todo[i].slot.ordinal < todo[j].slot.ordinal)
  }

  /**
   A match's files as they are on disk, but for empty ones and those of its newest map, which
   excludeInProgress may drop.
   */
  ghost predicate FilesOf(files: map<Name, nat>, matchId: int, found: seq<Found>) {
    && (forall d | d in found :: d.name.matchId == matchId && d.name in files && d.bytes == files[d.name] > 0)
    && (forall name | name in files && name.matchId == matchId && files[name] > 0 ::
          Found(name, files[name]) in found || IsNewest(files, name))
  }

  predicate IsNewest(files: map<Name, nat>, name: Name) {
    forall other | other in files && other.matchId == name.matchId :: other.ordinal <= name.ordinal
  }

  /**
   When a step can be taken, and what it takes from outside. From the SELECT, or the end of a row's
   last await, the code goes on to its next await at once: at a row's turn nothing else can happen.
   The SELECT reads one match's rows, a file untouched for DEMO_QUIET_MS is finished, a PUT that
   reports success stored something, and recordMatchDemos sees one match's files.
   */
  ghost predicate CanHappen(w: World, e: Event) {
    && (w.work.Turn? <==> e.Look?)
    && match e
       case Select(matchId, todo) => w.work.Idle? && RowsOf(w.rows, matchId, todo)
       case Look(quiet, _) =>
         w.work.todo != [] && quiet ==>
           var found := Resolve(w, w.work.todo[0].slot);
           found.Some? ==> found.value.name in w.finished
       case PutSettles(ok, stored) => w.work.Putting? && (ok ==> stored.Some?)
       case HeadSettles(_, _) => w.work.Checking? || w.work.Verifying?
       case RemoveSettles(_) => w.work.Removing?
       case Record(matchId, found) => FilesOf(w.files, matchId, found)
       case _ => true
  }

  // ---------- the code's own part of a step ----------

  /** The sweep's own state: what its awaits go between. */
  class Sweep {
    var rows: Rows
    var work: Work

    method TakeTurn(found: Option<Found>, quiet: bool, reclaim: bool)
      requires work.Turn?
      modifies this`work
      ensures work == NextTurn(old(work).todo, found, quiet, reclaim)
    {
      if work.todo == [] { work := Idle; return; }
      var snap, rest := work.todo[0], work.todo[1..];
      if snap.row.key.Some? {
        if found.Some? && reclaim { work := Checking(found.value, snap.row.key.value, rest); return; }
        work := Turn(rest);
        return;
      }
      if found.None? || !quiet { work := Turn(rest); return; }
      work := Putting(snap, found.value, rest);
    }

    /** `remote` is the object's size, if it is there and HEAD answered. */
    method AfterHead(remote: Option<nat>, reclaim: bool)
      requires work.Checking? || work.Verifying?
      modifies this
      ensures
        var was, same := old(work), remote == Some(old(work).found.bytes);
        && rows == (if was.Verifying? && same then Keyed(old(rows), was.snap.slot, Key(was.snap.row.filename))
                    else old(rows))
        && work == (if same && (was.Checking? || reclaim) then Removing(was.found.name, was.todo) else Turn(was.todo))
    {
      var todo, found := work.todo, work.found;
      if remote != Some(found.bytes) { work := Turn(todo); return; }
      if work.Checking? { work := Removing(found.name, todo); return; }
      var slot := work.snap.slot;
      if slot in rows { rows := rows[slot := rows[slot].(key := Some(Key(work.snap.row.filename)))]; }
      work := if reclaim then Removing(found.name, todo) else Turn(todo);
    }
  }

  // ---------- runs ----------

  ghost function Run(w: World, events: seq<Event>): World
    decreases |events|
  {
    if events == [] then w else Run(After(w, events[0]), events[1..])
  }

  /** Every step of the run can happen when it is its turn. */
  ghost predicate Happens(w: World, events: seq<Event>)
    decreases |events|
  {
    events == [] || (CanHappen(w, events[0]) && Happens(After(w, events[0]), events[1..]))
  }

  const Empty := World(map[], map[], map[], Idle, map[], {})

  lemma RunOn(w: World, e: Event, rest: seq<Event>)
    ensures Run(w, [e] + rest) == Run(After(w, e), rest)
    ensures Happens(w, [e] + rest) <==> CanHappen(w, e) && Happens(After(w, e), rest)
  {
    hide After, CanHappen;
    assert ([e] + rest)[1..] == rest;
  }

  // ---------- what a file on disk and an object say ----------

  ghost predicate WholeFiles(w: World) {
    forall name | name in w.finished && name in w.files :: w.files[name] == w.finished[name]
  }

  ghost predicate Whole(w: World, found: Found) {
    found.name in w.finished && found.bytes == w.finished[found.name]
  }

  /** In the bucket under its own key, whole. */
  ghost predicate Stored(w: World, name: Name) {
    name in w.finished && Key(name) in w.bucket && w.bucket[Key(name)] == Recording(name, w.finished[name])
  }

  /** Every object is stored under the key of its own file. */
  ghost predicate OwnObjects(w: World) {
    forall key | key in w.bucket :: w.bucket[key].name == key.name
  }
}
