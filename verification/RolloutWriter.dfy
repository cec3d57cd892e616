/**
 The balance rollout writer as a protocol (src/balanceWriter.ts and the row
 marks of src/balanceRollouts.ts): one step for each stretch of code between
 two awaits, next to the steps of everything else that moves meanwhile.
 */
module RolloutWriter {
  import opened Wrappers

  type ServerId = int
  type Content = string
  type TaskId = int
  type OpId = int
  type HoldId = int

  datatype RowState = Pending | Written | Confirmed | Failed
  datatype RowKey = RowKey(rollout: int, server: ServerId)

  datatype Status = Idle | Reserved | Live | Offline

  /** `leased` stands for a row of open_server_holds, `inMatch` for a match in
      configuring or live, `reachable` for a usable transport. */
  datatype Server = Server(status: Status, enabled: bool, reachable: bool, leased: bool, inMatch: bool)

  /** Who took a reserved box out of the pool (ServerHolds). */
  datatype Owner = Release | Balance

  /** A transport call against a box: put, then read back. `hold` is the hold
      it ends when it settles. */
  datatype WriteOp = WriteOp(server: ServerId, rollout: int, hold: Option<HoldId>)

  /** What a settled call came to: the text read back, or an error. */
  datatype OpResult = ReadBack(text: Option<Content>) | Threw

  datatype Task = Sweep(id: TaskId) | VerifyThenSweep(id: TaskId) | ForRelease(id: TaskId, server: ServerId)

  /** What the running task goes on with after a box. */
  datatype After = Rest(todo: seq<ServerId>) | Done | AwaitLate

  /** Where the turn at the head of the chain is. */
  datatype Pc =
    | Free
    | InPass(rollout: int, todo: seq<ServerId>)
    | Counting(rollout: int, server: ServerId, hold: HoldId, after: After)
    | Preparing(rollout: int, server: ServerId, held: Option<HoldId>, after: After)
    | Waiting(rollout: int, server: ServerId, op: OpId, result: Option<OpResult>, after: After)
    | WaitingLate(server: ServerId)
    | Verifying(rollout: int, todo: seq<ServerId>)

  datatype World = World(
    rollouts: seq<Content>,
    rows: map<RowKey, RowState>,
    servers: map<ServerId, Server>,
    files: map<ServerId, Content>,
    holds: map<ServerId, Owner>,
    inFlight: map<ServerId, OpId>,
    ops: map<OpId, WriteOp>,
    /** The holds taken and not yet ended. */
    open: map<HoldId, ServerId>,
    queue: seq<Task>,
    queuedSync: Option<TaskId>,
    pc: Pc,
    nextId: int)

  // ---------- rows ----------

  /** An apply supersedes every rollout before it, so the newest is active. */
  function Active(w: World): Option<int> {
    if w.rollouts == [] then None else Some(|w.rollouts| - 1)
  }

  function FileOf(w: World, s: ServerId): Option<Content> {
    if s in w.files then Some(w.files[s]) else None
  }

  /** A row that says the rollout's file is on the box. */
  predicate SaysWritten(rows: map<RowKey, RowState>, rollout: int, s: ServerId) {
    var k := RowKey(rollout, s);
    k in rows && (rows[k] == Written || rows[k] == Confirmed)
  }

  predicate NeedsWrite(rows: map<RowKey, RowState>, rollout: int, s: ServerId) {
    var k := RowKey(rollout, s);
    k in rows && (rows[k] == Pending || rows[k] == Failed)
  }

  function PendingOf(servers: map<ServerId, Server>, rollout: int): map<RowKey, RowState> {
    map s | s in servers && servers[s].enabled :: RowKey(rollout, s) := Pending
  }

  function EnsureRows(w: World, rollout: int): World {
    w.(rows := PendingOf(w.servers, rollout) + w.rows)
  }

  function MarkWritten(w: World, rollout: int, s: ServerId): World {
    if NeedsWrite(w.rows, rollout, s) then w.(rows := w.rows[RowKey(rollout, s) := Written]) else w
  }

  function MarkPending(w: World, rollout: int, s: ServerId): World {
    if RowKey(rollout, s) in w.rows then w.(rows := w.rows[RowKey(rollout, s) := Pending]) else w
  }

  /** A superseded rollout is no longer this writer's business. */
  function FailIfStillActive(w: World, rollout: int, s: ServerId): World {
    if Active(w) == Some(rollout) && RowKey(rollout, s) in w.rows then
      w.(rows := w.rows[RowKey(rollout, s) := Failed])
    else w
  }

  // ---------- holds ----------

  predicate CanHold(w: World, s: ServerId) {
    s in w.servers && w.servers[s].status == Idle && w.servers[s].enabled && !w.servers[s].leased
  }

  /** idle -> reserved in one statement. */
  function Hold(w: World, s: ServerId): World
    requires CanHold(w, s)
  {
    w.(servers := w.servers[s := w.servers[s].(status := Reserved)], holds := w.holds[s := Balance],
       open := w.open[w.nextId := s], nextId := w.nextId + 1)
  }

  /** The end of hold `h`: back to idle, unless the hold on the box is another
      side's now or a match took it over. */
  function Unhold(w: World, s: ServerId, h: HoldId): World {
    var u := w.(open := w.open - {h});
    if s !in w.holds || w.holds[s] != Balance then u
    else
      var v := u.(holds := w.holds - {s});
      if s in w.servers && w.servers[s].status == Reserved && !w.servers[s].inMatch then
        v.(servers := w.servers[s := w.servers[s].(status := Idle)])
      else v
  }

  function Release_(w: World, s: ServerId, h: Option<HoldId>): World {
    match h
    case None => w
    case Some(id) => Unhold(w, s, id)
  }

  // ---------- the chain ----------

  /** sync(): joins the sweep that has not started, else queues one. */
  function Sync(w: World): World {
    if w.queuedSync.Some? then w
    else w.(queue := w.queue + [Sweep(w.nextId)], queuedSync := Some(w.nextId), nextId := w.nextId + 1)
  }

  function VerifyAll(w: World): World {
    w.(queue := w.queue + [VerifyThenSweep(w.nextId)], nextId := w.nextId + 1)
  }

  function WriteForRelease(w: World, s: ServerId): World {
    w.(queue := w.queue + [ForRelease(w.nextId, s)], nextId := w.nextId + 1)
  }

  /** pass() up to its first box. */
  function BeginPass(w: World, todo: seq<ServerId>): World {
    match Active(w)
    case None => w.(pc := Free)
    case Some(r) => EnsureRows(w, r).(pc := InPass(r, todo))
  }

  function GoOn(w: World, rollout: int, s: ServerId, after: After): World {
    match after
    case Rest(todo) => w.(pc := InPass(rollout, todo))
    case Done => w.(pc := Free)
    case AwaitLate => w.(pc := if s in w.inFlight then WaitingLate(s) else Free)
  }

  /** writeHeld up to its first await. */
  function WriteHeld(w: World, rollout: int, s: ServerId, after: After): World
    requires s in w.servers
  {
    if !w.servers[s].reachable then GoOn(FailIfStillActive(w, rollout, s), rollout, s, after)
    else if !CanHold(w, s) then GoOn(w, rollout, s, after)
    else Hold(w, s).(pc := Counting(rollout, s, w.nextId, after))
  }

  /** The queued turn of a release, up to its first await. `late` says its cap
      ran out before the turn came. */
  function BeginRelease(w: World, s: ServerId, late: bool): World {
    var idle := w.(pc := Free);
    match Active(w)
    case None => idle
    case Some(r) =>
      if s in w.inFlight || s !in w.servers || !w.servers[s].enabled then idle
      else
        var u := EnsureRows(w, r);
        if !NeedsWrite(u.rows, r, s) then u.(pc := Free)
        else match w.servers[s].status
        case Idle => WriteHeld(u, r, s, Done)
        case Offline => if late then u.(pc := Free) else u.(pc := Preparing(r, s, None, AwaitLate))
        case _ => u.(pc := Free)
  }

  /** A sweep that starts is no longer one to join. */
  function Popped(w: World): World
    requires w.queue != []
  {
    w.(queue := w.queue[1..], queuedSync := if w.queue[0].Sweep? then None else w.queuedSync)
  }

  /** The head of the chain starts. `todo` lists the enabled servers. */
  function StartTask(w: World, todo: seq<ServerId>, late: bool): World
    requires w.queue != []
  {
    var u := Popped(w);
    match w.queue[0]
    case Sweep(_) => BeginPass(u, todo)
    case VerifyThenSweep(_) =>
      (match Active(w)
       case None => u.(pc := Free)
       case Some(r) => EnsureRows(u, r).(pc := Verifying(r, todo)))
    case ForRelease(_, s) => BeginRelease(u, s, late)
  }

  /** The next box of a pass: skipped unless it still needs the file, has no
      write in flight and is enabled and idle right now. */
  function PassNext(w: World): World
    requires w.pc.InPass?
  {
    var r, todo := w.pc.rollout, w.pc.todo;
    if todo == [] then w.(pc := Free)
    else
      var s, rest := todo[0], todo[1..];
      var u := w.(pc := InPass(r, rest));
      if !NeedsWrite(w.rows, r, s) || s in w.inFlight then u
      else if s !in w.servers || !w.servers[s].enabled || w.servers[s].status != Idle then u
      else WriteHeld(w, r, s, Rest(rest))
  }

  /** The player count came back: empty, or why not. */
  function Counted(w: World, empty: bool): World
    requires w.pc.Counting?
  {
    var p := w.pc;
    if empty then w.(pc := Preparing(p.rollout, p.server, Some(p.hold), p.after))
    else GoOn(Unhold(w, p.server, p.hold), p.rollout, p.server, p.after)
  }

  /** writeOne could not start: no transport, or no temporary directory. */
  function PrepareFailed(w: World): World
    requires w.pc.Preparing?
  {
    var p := w.pc;
    GoOn(FailIfStillActive(Release_(w, p.server, p.held), p.rollout, p.server), p.rollout, p.server, p.after)
  }

  /** The transport call starts and is tracked until it settles. */
  function Started(w: World): World
    requires w.pc.Preparing?
  {
    var p := w.pc;
    w.(ops := w.ops[w.nextId := WriteOp(p.server, p.rollout, p.held)],
       inFlight := w.inFlight[p.server := w.nextId], nextId := w.nextId + 1,
       pc := Waiting(p.rollout, p.server, w.nextId, None, p.after))
  }

  /** The box's file becomes what the call carries. */
  function Landed(w: World, op: OpId): World
    requires op in w.ops
  {
    if 0 <= w.ops[op].rollout < |w.rollouts| then
      w.(files := w.files[w.ops[op].server := w.rollouts[w.ops[op].rollout]])
    else w
  }

  /** The call settles: no longer tracked, its hold ended, its result handed to
      the turn if that still waits for it. */
  function Settled(w: World, op: OpId, ok: bool): World
    requires op in w.ops
  {
    var o := w.ops[op];
    var result := if ok then ReadBack(FileOf(w, o.server)) else Threw;
    var u := Release_(w.(ops := w.ops - {op}, inFlight := w.inFlight - {o.server}), o.server, o.hold);
    if w.pc.Waiting? && w.pc.op == op then u.(pc := w.pc.(result := Some(result))) else u
  }

  /** The turn goes on after the call settled in time. */
  function Resumed(w: World): World
    requires w.pc.Waiting? && w.pc.result.Some? && 0 <= w.pc.rollout < |w.rollouts|
  {
    var p := w.pc;
    var u :=
      if p.result.value == ReadBack(Some(w.rollouts[p.rollout])) then
        if Active(w) == Some(p.rollout) then MarkWritten(w, p.rollout, p.server) else w
      else FailIfStillActive(w, p.rollout, p.server);
    GoOn(u, p.rollout, p.server, p.after)
  }

  /** The turn gives up on a call that has not settled. */
  function TimedOut(w: World): World
    requires w.pc.Waiting?
  {
    GoOn(FailIfStillActive(w, w.pc.rollout, w.pc.server), w.pc.rollout, w.pc.server, w.pc.after)
  }

  /** The boot check of one box; None when it could not be read. */
  function Verified(w: World, read: bool, todo: seq<ServerId>): World
    requires w.pc.Verifying? && 0 <= w.pc.rollout < |w.rollouts|
  {
    var r := w.pc.rollout;
    if w.pc.todo == [] then BeginPass(w, todo)
    else VerifiedOne(w.(pc := Verifying(r, w.pc.todo[1..])), read, r, w.pc.todo[0])
  }

  function VerifiedOne(w: World, read: bool, r: int, s: ServerId): World
    requires 0 <= r < |w.rollouts|
  {
    var same := FileOf(w, s) == Some(w.rollouts[r]);
    if !read || s !in w.servers || !w.servers[s].reachable then w
    else if same && NeedsWrite(w.rows, r, s) then MarkWritten(w, r, s)
    else if !same && SaysWritten(w.rows, r, s) then MarkPending(w, r, s)
    else w
  }

  // ---------- everything else ----------

  /** applyKnobs: the rollout and a pending row for every enabled server. */
  function Applied(w: World, content: Content): World {
    EnsureRows(w.(rollouts := w.rollouts + [content]), |w.rollouts|)
  }

  /** confirmOnSighting: `carries` says the sighting has the rollout's values. */
  function Sighting(w: World, s: ServerId, carries: bool): World {
    match Active(w)
    case None => w
    case Some(r) =>
      if carries && RowKey(r, s) in w.rows && w.rows[RowKey(r, s)] == Written then
        w.(rows := w.rows[RowKey(r, s) := Confirmed])
      else w
  }

  datatype Step =
    | DoSync | DoVerifyAll | DoRelease(server: ServerId)
    | Start(todo: seq<ServerId>, late: bool)
    | Next | Count(empty: bool) | NoStart | Begin
    | Land(op: OpId) | Settle(op: OpId, ok: bool)
    | Resume | Timeout | LateOver
    | Check(read: bool, todo: seq<ServerId>)
    | DoApply(content: Content) | See(server: ServerId, carries: bool)
    /** A match, an admin or the release engine changes a server row. */
    | Outside(server: ServerId, row: Server)
    /** The release engine takes a hold, or lets its own go. */
    | OtherTakes(server: ServerId) | OtherDrops(server: ServerId)

  /** The boot verify runs with nothing in flight. */
  predicate Enabled_(w: World, step: Step) {
    match step
    case Start(_, _) => w.pc.Free? && w.queue != [] && (w.queue[0].VerifyThenSweep? ==> w.ops == map[])
    case Next => w.pc.InPass?
    case Count(_) => w.pc.Counting?
    case NoStart => w.pc.Preparing?
    case Begin => w.pc.Preparing?
    case Land(op) => op in w.ops
    case Settle(op, _) => op in w.ops
    case Resume => w.pc.Waiting? && w.pc.result.Some? && 0 <= w.pc.rollout < |w.rollouts|
    case Timeout => w.pc.Waiting?
    case LateOver => w.pc.WaitingLate?
    case Check(_, _) => w.pc.Verifying? && 0 <= w.pc.rollout < |w.rollouts|
    case OtherDrops(s) => s in w.holds && w.holds[s] == Release
    case _ => true
  }

  function Do(w: World, step: Step): World
    requires Enabled_(w, step)
  {
    match step
    case DoSync => Sync(w)
    case DoVerifyAll => VerifyAll(w)
    case DoRelease(s) => WriteForRelease(w, s)
    case Start(todo, late) => StartTask(w, todo, late)
    case Next => PassNext(w)
    case Count(empty) => Counted(w, empty)
    case NoStart => PrepareFailed(w)
    case Begin => Started(w)
    case Land(op) => Landed(w, op)
    case Settle(op, ok) => Settled(w, op, ok)
    case Resume => Resumed(w)
    case Timeout => TimedOut(w)
    case LateOver => w.(pc := Free)
    case Check(read, todo) => Verified(w, read, todo)
    case DoApply(content) => Applied(w, content)
    case See(s, carries) => Sighting(w, s, carries)
    case Outside(s, row) => w.(servers := w.servers[s := row])
    case OtherTakes(s) => w.(holds := w.holds[s := Release])
    case OtherDrops(s) => w.(holds := w.holds - {s})
  }

  /** A step that cannot happen yet is no step. */
  function Run(w: World, steps: seq<Step>): World {
    if steps == [] then w
    else
      var u := Run(w, steps[..|steps| - 1]);
      if Enabled_(u, steps[|steps| - 1]) then Do(u, steps[|steps| - 1]) else u
  }

  /** A fresh process over a database: nothing queued, running or held. */
  predicate Fresh(w: World) {
    && w.pc.Free? && w.queue == [] && w.queuedSync.None?
    && w.ops == map[] && w.inFlight == map[] && w.open == map[]
    && (forall s | s in w.holds :: w.holds[s] == Release)
    && (forall k | k in w.rows :: 0 <= k.rollout < |w.rollouts|)
  }
}
