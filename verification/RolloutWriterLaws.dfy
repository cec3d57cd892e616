/**
 What the rollout writer promises over every interleaving: one write at a time
 on a box, every hold ended once and not before its write settled, every sync()
 answered by a later sweep, and rows that tell the truth about the file.
 */
module RolloutWriterLaws {
  import opened Wrappers
  import opened RolloutWriter

  // ---------- the invariant ----------

  type Rows = map<RowKey, RowState>
  type Ops = map<OpId, WriteOp>

  ghost predicate RowsBounded(rows: Rows, n: int) {
    forall k | k in rows :: 0 <= k.rollout < n
  }

  /** The writer's table of calls in flight and the calls in flight agree. */
  ghost predicate FlightsTracked(ops: Ops, inFlight: map<ServerId, OpId>) {
    && (forall o | o in ops :: ops[o].server in inFlight && inFlight[ops[o].server] == o)
    && (forall s | s in inFlight :: inFlight[s] in ops && ops[inFlight[s]].server == s)
  }

  ghost predicate IdsBounded(ops: Ops, open: map<HoldId, ServerId>, queue: seq<Task>, n: int, nextId: int) {
    && (forall o | o in ops :: o < nextId && 0 <= ops[o].rollout < n)
    && (forall h | h in open :: h < nextId)
    && (forall t | t in queue :: t.id < nextId)
  }

  /** The hold the running task is to end itself. */
  function PcHold(pc: Pc): Option<HoldId> {
    match pc
    case Counting(_, _, h, _) => Some(h)
    case Preparing(_, _, h, _) => h
    case _ => None
  }

  ghost predicate OwedByCall(ops: Ops, h: HoldId) {
    exists o :: o in ops && ops[o].hold == Some(h)
  }

  /** Every open hold is owed by exactly one: the running task or one call. */
  ghost predicate HoldsOwned(open: map<HoldId, ServerId>, ops: Ops, pcHold: Option<HoldId>) {
    && (forall h | h in open :: pcHold == Some(h) || OwedByCall(ops, h))
    && (forall o | o in ops && ops[o].hold.Some? ::
          Owes(open, ops[o].hold.value, ops[o].server) && pcHold != ops[o].hold)
    && (forall o, p | o in ops && p in ops && ops[o].hold.Some? && ops[o].hold == ops[p].hold :: o == p)
  }

  predicate Owes(open: map<HoldId, ServerId>, h: HoldId, s: ServerId) {
    h in open && open[h] == s
  }

  /** The sweep that sync() hands out is queued, once, and has not started. */
  ghost predicate ChainSound(queue: seq<Task>, queuedSync: Option<TaskId>) {
    && (forall id :: Sweep(id) in queue <==> queuedSync == Some(id))
    && (forall i, j | 0 <= i < j < |queue| && queue[i].Sweep? :: !queue[j].Sweep?)
  }

  ghost predicate PcSound(pc: Pc, rows: Rows, ops: Ops, inFlight: map<ServerId, OpId>, open: map<HoldId, ServerId>,
                          files: map<ServerId, Content>, nextId: int)
  {
    match pc
    case Counting(r, s, h, _) => s !in inFlight && !SaysWritten(rows, r, s) && Owes(open, h, s)
    case Preparing(r, s, h, _) => s !in inFlight && !SaysWritten(rows, r, s) && (h.Some? ==> Owes(open, h.value, s))
    case Waiting(r, s, op, None, _) =>
      op in ops && ops[op].server == s && ops[op].rollout == r && !SaysWritten(rows, r, s)
    case Waiting(r, s, op, Some(result), _) =>
      op !in ops && op < nextId && s !in inFlight && !SaysWritten(rows, r, s)
      && (result.ReadBack? ==> result.text == if s in files then Some(files[s]) else None)
    case Verifying(_, _) => ops == map[]
    case _ => true
  }

  function PcRollout(pc: Pc): Option<int> {
    match pc
    case InPass(r, _) => Some(r)
    case Counting(r, _, _, _) => Some(r)
    case Preparing(r, _, _, _) => Some(r)
    case Waiting(r, _, _, _, _) => Some(r)
    case Verifying(r, _) => Some(r)
    case _ => None
  }

  /** A rollout newer than the one the running task writes is on no box yet. */
  ghost predicate NewerUnwritten(rows: Rows, running: Option<int>, n: int) {
    running.Some? ==>
      0 <= running.value < n && forall r, s | r > running.value :: !SaysWritten(rows, r, s)
  }

  /** A box with a write in flight has no row saying it has the newest file. */
  ghost predicate NoWriteUnderWritten(rows: Rows, inFlight: map<ServerId, OpId>, n: int) {
    forall s | s in inFlight :: !SaysWritten(rows, n - 1, s)
  }

  ghost predicate Safe(w: World) {
    && RowsBounded(w.rows, |w.rollouts|)
    && FlightsTracked(w.ops, w.inFlight)
    && IdsBounded(w.ops, w.open, w.queue, |w.rollouts|, w.nextId)
    && HoldsOwned(w.open, w.ops, PcHold(w.pc))
    && ChainSound(w.queue, w.queuedSync)
    && PcSound(w.pc, w.rows, w.ops, w.inFlight, w.open, w.files, w.nextId)
    && NewerUnwritten(w.rows, PcRollout(w.pc), |w.rollouts|)
    && NoWriteUnderWritten(w.rows, w.inFlight, |w.rollouts|)
  }

  lemma FreshIsSafe(w: World)
    requires Fresh(w)
    ensures Safe(w)
  {
  }

  // ---------- every step keeps it ----------

  /** Rows that say no more boxes are written keep it. */
  lemma WeakerRowsKeepSafe(w: World, rows: Rows)
    requires Safe(w) && RowsBounded(rows, |w.rollouts|)
    requires forall r, s :: SaysWritten(rows, r, s) ==> SaysWritten(w.rows, r, s)
    ensures Safe(w.(rows := rows))
  {
  }

  lemma EnsureKeepsSafe(w: World, r: int)
    requires Safe(w) && 0 <= r < |w.rollouts|
    ensures Safe(EnsureRows(w, r))
    ensures forall k, s :: SaysWritten(EnsureRows(w, r).rows, k, s) == SaysWritten(w.rows, k, s)
  {
    var u := EnsureRows(w, r);
    forall k, s ensures SaysWritten(u.rows, k, s) == SaysWritten(w.rows, k, s) {
      assert RowKey(k, s) in w.rows ==> u.rows[RowKey(k, s)] == w.rows[RowKey(k, s)];
    }
    WeakerRowsKeepSafe(w, u.rows);
  }

  lemma FailKeepsSafe(w: World, r: int, s: ServerId)
    requires Safe(w)
    ensures Safe(FailIfStillActive(w, r, s))
  {
    WeakerRowsKeepSafe(w, FailIfStillActive(w, r, s).rows);
  }

  /** Safe but for the place the turn is at, which is between two boxes. */
  ghost predicate SafeBetween(w: World, r: int) {
    Safe(w.(pc := InPass(r, [])))
  }

  lemma GoOnKeepsSafe(w: World, r: int, s: ServerId, after: After)
    requires SafeBetween(w, r)
    ensures Safe(GoOn(w, r, s, after))
  {
  }

  lemma FailAndGoOn(w: World, r: int, s: ServerId, after: After)
    requires SafeBetween(w, r)
    ensures Safe(GoOn(FailIfStillActive(w, r, s), r, s, after))
  {
    FailKeepsSafe(w.(pc := InPass(r, [])), r, s);
    GoOnKeepsSafe(FailIfStillActive(w, r, s), r, s, after);
  }

  lemma HoldKeepsSafe(w: World, r: int, s: ServerId, after: After)
    requires SafeBetween(w, r) && CanHold(w, s) && s !in w.inFlight && !SaysWritten(w.rows, r, s)
    ensures Safe(Hold(w, s).(pc := Counting(r, s, w.nextId, after)))
  {
  }

  lemma HeldKeepsSafe(w: World, r: int, s: ServerId, after: After)
    requires SafeBetween(w, r) && s in w.servers && s !in w.inFlight && !SaysWritten(w.rows, r, s)
    ensures Safe(WriteHeld(w, r, s, after))
  {
    if !w.servers[s].reachable {
      FailAndGoOn(w, r, s, after);
    } else if !CanHold(w, s) {
      GoOnKeepsSafe(w, r, s, after);
    } else {
      HoldKeepsSafe(w, r, s, after);
    }
  }

  lemma PrepareKeepsSafe(w: World, r: int, s: ServerId, after: After)
    requires SafeBetween(w, r) && s !in w.inFlight && !SaysWritten(w.rows, r, s)
    ensures Safe(w.(pc := Preparing(r, s, None, after)))
  {
  }

  lemma BeginReleaseKeepsSafe(w: World, s: ServerId, late: bool)
    requires Safe(w) && w.pc.Free?
    ensures Safe(BeginRelease(w, s, late))
  {
    hide WriteHeld, FlightsTracked, IdsBounded, HoldsOwned, ChainSound;
    if Active(w).Some? {
      var r := Active(w).value;
      EnsureKeepsSafe(w, r);
      var u := EnsureRows(w, r);
      NewestIsBetween(u);
      if s !in w.inFlight && s in w.servers && NeedsWrite(u.rows, r, s) {
        if w.servers[s].status == Idle {
          HeldKeepsSafe(u, r, s, Done);
        } else {
          PrepareKeepsSafe(u, r, s, AwaitLate);
        }
      }
    }
  }

  lemma NewestIsBetween(w: World)
    requires Safe(w) && w.pc.Free? && Active(w).Some?
    ensures SafeBetween(w, Active(w).value)
  {
  }

  lemma SweepsAfterFirst(q: seq<Task>, id: TaskId)
    requires q != [] && forall i, j | 0 <= i < j < |q| && q[i].Sweep? :: !q[j].Sweep?
    ensures Sweep(id) in q[1..] ==> !q[0].Sweep?
    ensures Sweep(id) in q <==> q[0] == Sweep(id) || Sweep(id) in q[1..]
  {
    assert q == [q[0]] + q[1..];
  }

  lemma PopKeepsSafe(w: World)
    requires Safe(w) && w.pc.Free? && w.queue != []
    ensures Safe(Popped(w))
  {
    forall id { SweepsAfterFirst(w.queue, id); }
  }

  lemma BeginPassKeepsSafe(w: World, todo: seq<ServerId>)
    requires Safe(w.(pc := Free))
    ensures Safe(BeginPass(w, todo))
  {
    if Active(w).Some? {
      EnsureKeepsSafe(w.(pc := Free), Active(w).value);
      NewestIsBetween(EnsureRows(w, Active(w).value).(pc := Free));
    }
  }

  lemma BeginVerifyKeepsSafe(w: World, todo: seq<ServerId>)
    requires Safe(w) && w.pc.Free? && w.ops == map[] && Active(w).Some?
    ensures Safe(EnsureRows(w, Active(w).value).(pc := Verifying(Active(w).value, todo)))
  {
    EnsureKeepsSafe(w, Active(w).value);
    NewestIsBetween(EnsureRows(w, Active(w).value));
  }

  lemma StartKeepsSafe(w: World, todo: seq<ServerId>, late: bool)
    requires Safe(w) && Enabled_(w, Start(todo, late))
    ensures Safe(Do(w, Start(todo, late)))
  {
    PopKeepsSafe(w);
    var u := Popped(w);
    match w.queue[0]
    case Sweep(_) => BeginPassKeepsSafe(u, todo);
    case VerifyThenSweep(_) => if Active(u).Some? { BeginVerifyKeepsSafe(u, todo); }
    case ForRelease(_, s) => BeginReleaseKeepsSafe(u, s, late);
  }

  lemma NextKeepsSafe(w: World)
    requires Safe(w) && w.pc.InPass?
    ensures Safe(PassNext(w))
  {
    hide WriteHeld, NeedsWrite, SaysWritten, RowsBounded, FlightsTracked, IdsBounded, HoldsOwned, ChainSound;
    hide NoWriteUnderWritten;
    if w.pc.todo != [] {
      var r, s, rest := w.pc.rollout, w.pc.todo[0], w.pc.todo[1..];
      if NeedsWrite(w.rows, r, s) { NeedsIsNotWritten(w.rows, r, s); }
      if NeedsWrite(w.rows, r, s) && s !in w.inFlight && s in w.servers {
        HeldKeepsSafe(w, r, s, Rest(rest));
      }
    }
  }

  lemma NeedsIsNotWritten(rows: map<RowKey, RowState>, r: int, s: ServerId)
    requires NeedsWrite(rows, r, s)
    ensures !SaysWritten(rows, r, s)
  {
  }

  lemma PendingSaysLess(w: World, r: int, s: ServerId)
    ensures forall k, x :: SaysWritten(MarkPending(w, r, s).rows, k, x) ==> SaysWritten(w.rows, k, x)
    ensures MarkPending(w, r, s) == w.(rows := MarkPending(w, r, s).rows)
    ensures MarkPending(w, r, s).rows.Keys == w.rows.Keys
  {
  }

  lemma OwnHoldEnds(open: map<HoldId, ServerId>, ops: Ops, h: HoldId)
    requires HoldsOwned(open, ops, Some(h))
    ensures HoldsOwned(open - {h}, ops, None)
  {
  }

  lemma CallHoldEnds(open: map<HoldId, ServerId>, ops: Ops, pcHold: Option<HoldId>, op: OpId)
    requires HoldsOwned(open, ops, pcHold) && op in ops
    ensures ops[op].hold.None? ==> HoldsOwned(open, ops - {op}, pcHold)
    ensures ops[op].hold.Some? ==> HoldsOwned(open - {ops[op].hold.value}, ops - {op}, pcHold)
  {
    var ops' := ops - {op};
    forall h | h in open && ops[op].hold != Some(h) ensures pcHold == Some(h) || OwedByCall(ops', h) {
      if pcHold != Some(h) {
        var o :| o in ops && ops[o].hold == Some(h);
        assert o in ops' && ops'[o] == ops[o];
      }
    }
  }

  /** Ending a hold changes server rows, owners and open holds alone. */
  lemma UnholdTouches(w: World, s: ServerId, h: HoldId)
    ensures
      var u := Unhold(w, s, h);
      u == w.(servers := u.servers, holds := u.holds, open := w.open - {h})
  {
  }

  /** The turn ends its own hold. */
  lemma OwnUnholdKeepsSafe(w: World, r: int, s: ServerId, h: HoldId)
    requires Safe(w) && PcHold(w.pc) == Some(h) && PcRollout(w.pc) == Some(r)
    ensures SafeBetween(Unhold(w, s, h), r)
  {
    UnholdTouches(w, s, h);
    OwnHoldEnds(w.open, w.ops, h);
  }

  lemma CountKeepsSafe(w: World, empty: bool)
    requires Safe(w) && w.pc.Counting?
    ensures Safe(Counted(w, empty))
  {
    var p := w.pc;
    if !empty {
      OwnUnholdKeepsSafe(w, p.rollout, p.server, p.hold);
      GoOnKeepsSafe(Unhold(w, p.server, p.hold), p.rollout, p.server, p.after);
    }
  }

  lemma NoStartKeepsSafe(w: World)
    requires Safe(w) && w.pc.Preparing?
    ensures Safe(PrepareFailed(w))
  {
    var p := w.pc;
    if p.held.Some? { OwnUnholdKeepsSafe(w, p.rollout, p.server, p.held.value); }
    FailAndGoOn(Release_(w, p.server, p.held), p.rollout, p.server, p.after);
  }

  /** The turn's hold passes to the call that starts. */
  lemma HoldPassesOn(open: map<HoldId, ServerId>, ops: Ops, op: OpId, call: WriteOp)
    requires HoldsOwned(open, ops, call.hold) && op !in ops
    requires call.hold.Some? ==> Owes(open, call.hold.value, call.server)
    ensures HoldsOwned(open, ops[op := call], None)
  {
    var after := ops[op := call];
    forall h | h in open ensures OwedByCall(after, h) {
      if call.hold == Some(h) {
        assert after[op].hold == Some(h);
      } else {
        var o :| o in ops && ops[o].hold == Some(h);
        assert after[o] == ops[o];
      }
    }
  }

  lemma FlightStarts(ops: Ops, inFlight: map<ServerId, OpId>, op: OpId, call: WriteOp)
    requires FlightsTracked(ops, inFlight) && op !in ops && call.server !in inFlight
    ensures FlightsTracked(ops[op := call], inFlight[call.server := op])
  {
  }

  lemma BeginKeepsSafe(w: World)
    requires Safe(w) && w.pc.Preparing?
    ensures Safe(Started(w))
  {
    hide FlightsTracked, HoldsOwned, ChainSound, SaysWritten;
    var call := WriteOp(w.pc.server, w.pc.rollout, w.pc.held);
    HoldPassesOn(w.open, w.ops, w.nextId, call);
    FlightStarts(w.ops, w.inFlight, w.nextId, call);
  }

  lemma LandKeepsSafe(w: World, op: OpId)
    requires Safe(w) && op in w.ops
    ensures Safe(Landed(w, op))
  {
  }

  lemma FlightEnds(ops: Ops, inFlight: map<ServerId, OpId>, op: OpId)
    requires FlightsTracked(ops, inFlight) && op in ops
    ensures FlightsTracked(ops - {op}, inFlight - {ops[op].server})
  {
  }

  lemma PcAfterSettle(w: World, op: OpId, ok: bool)
    requires Safe(w) && op in w.ops
    ensures
      var u := Settled(w, op, ok);
      PcSound(u.pc, u.rows, u.ops, u.inFlight, u.open, u.files, u.nextId)
  {
    hide RowsBounded, ChainSound, NewerUnwritten, NoWriteUnderWritten, SaysWritten, Unhold;
    var o := w.ops[op];
    if o.hold.Some? {
      UnholdTouches(w.(ops := w.ops - {op}, inFlight := w.inFlight - {o.server}), o.server, o.hold.value);
    }
  }

  lemma SettledPc(w: World, op: OpId, ok: bool)
    requires op in w.ops
    ensures PcHold(Settled(w, op, ok).pc) == PcHold(w.pc) && PcRollout(Settled(w, op, ok).pc) == PcRollout(w.pc)
  {
    hide Release_;
    var o := w.ops[op];
    ReleaseTouches(w.(ops := w.ops - {op}, inFlight := w.inFlight - {o.server}), o.server, o.hold);
  }

  lemma FewerIdsBounded(ops: Ops, open: map<HoldId, ServerId>, queue: seq<Task>, n: int, nextId: int, op: OpId,
                        hold: Option<HoldId>)
    requires IdsBounded(ops, open, queue, n, nextId)
    ensures IdsBounded(ops - {op}, if hold.Some? then open - {hold.value} else open, queue, n, nextId)
  {
  }

  lemma FewerUnderWritten(rows: Rows, inFlight: map<ServerId, OpId>, n: int, s: ServerId)
    requires NoWriteUnderWritten(rows, inFlight, n)
    ensures NoWriteUnderWritten(rows, inFlight - {s}, n)
  {
    hide SaysWritten;
  }

  lemma SettleKeepsSafe(w: World, op: OpId, ok: bool)
    requires Safe(w) && op in w.ops
    ensures Safe(Settled(w, op, ok))
  {
    hide RowsBounded, FlightsTracked, IdsBounded, HoldsOwned, ChainSound, PcSound, NewerUnwritten, NoWriteUnderWritten;
    hide Settled, Release_, PcHold, PcRollout;
    var o := w.ops[op];
    SettleTouches(w, op, ok);
    SettledPc(w, op, ok);
    PcAfterSettle(w, op, ok);
    FlightEnds(w.ops, w.inFlight, op);
    CallHoldEnds(w.open, w.ops, PcHold(w.pc), op);
    FewerIdsBounded(w.ops, w.open, w.queue, |w.rollouts|, w.nextId, op, o.hold);
    FewerUnderWritten(w.rows, w.inFlight, |w.rollouts|, o.server);
  }

  lemma WaitingIsBetween(w: World)
    requires Safe(w) && w.pc.Waiting?
    ensures SafeBetween(w, w.pc.rollout)
  {
  }

  lemma MarkKeepsSafe(w: World, r: int, s: ServerId)
    requires SafeBetween(w, r) && s !in w.inFlight && Active(w) == Some(r)
    ensures SafeBetween(MarkWritten(w, r, s), r)
  {
  }

  lemma ResumeKeepsSafe(w: World)
    requires Safe(w) && Enabled_(w, Resume)
    ensures Safe(Resumed(w))
  {
    var p := w.pc;
    WaitingIsBetween(w);
    if p.result.value == ReadBack(Some(w.rollouts[p.rollout])) {
      if Active(w) == Some(p.rollout) {
        MarkKeepsSafe(w, p.rollout, p.server);
        GoOnKeepsSafe(MarkWritten(w, p.rollout, p.server), p.rollout, p.server, p.after);
      } else {
        GoOnKeepsSafe(w, p.rollout, p.server, p.after);
      }
    } else {
      FailAndGoOn(w, p.rollout, p.server, p.after);
    }
  }

  lemma TimeoutKeepsSafe(w: World)
    requires Safe(w) && w.pc.Waiting?
    ensures Safe(TimedOut(w))
  {
    WaitingIsBetween(w);
    FailAndGoOn(w, w.pc.rollout, w.pc.server, w.pc.after);
  }

  lemma CheckKeepsSafe(w: World, read: bool, todo: seq<ServerId>)
    requires Safe(w) && Enabled_(w, Check(read, todo))
    ensures Safe(Verified(w, read, todo))
  {
    hide Safe, BeginPass, VerifiedOne;
    if w.pc.todo == [] {
      VerifyingIsFree(w);
      BeginPassKeepsSafe(w, todo);
    } else {
      VerifyingOn(w);
      VerifiedOneKeepsSafe(w.(pc := Verifying(w.pc.rollout, w.pc.todo[1..])), read, w.pc.rollout, w.pc.todo[0]);
    }
  }

  lemma VerifyingIsFree(w: World)
    requires Safe(w) && w.pc.Verifying?
    ensures Safe(w.(pc := Free))
  {
  }

  lemma VerifyingOn(w: World)
    requires Safe(w) && w.pc.Verifying? && w.pc.todo != []
    ensures Safe(w.(pc := Verifying(w.pc.rollout, w.pc.todo[1..])))
  {
  }

  lemma VerifiedOneKeepsSafe(w: World, read: bool, r: int, s: ServerId)
    requires Safe(w) && w.pc.Verifying? && w.pc.rollout == r && 0 <= r < |w.rollouts|
    ensures Safe(VerifiedOne(w, read, r, s))
  {
    hide Safe, NeedsWrite, SaysWritten, FileOf, MarkWritten, MarkPending;
    PendingKeepsSafe(w, r, s);
    VerifyMarkKeepsSafe(w, r, s);
  }

  lemma PendingKeepsSafe(w: World, r: int, s: ServerId)
    requires Safe(w)
    ensures Safe(MarkPending(w, r, s))
  {
    PendingSaysLess(w, r, s);
    assert forall k :: k in w.rows <==> k in w.rows.Keys;
    assert forall k :: k in MarkPending(w, r, s).rows <==> k in MarkPending(w, r, s).rows.Keys;
    hide SaysWritten, MarkPending;
    WeakerRowsKeepSafe(w, MarkPending(w, r, s).rows);
  }

  lemma NoneInFlight(ops: Ops, inFlight: map<ServerId, OpId>)
    requires FlightsTracked(ops, inFlight) && ops == map[]
    ensures forall x :: x !in inFlight
  {
  }

  lemma VerifyMarkKeepsSafe(w: World, r: int, s: ServerId)
    requires Safe(w) && w.pc.Verifying? && w.pc.rollout == r
    ensures Safe(MarkWritten(w, r, s))
  {
    NoneInFlight(w.ops, w.inFlight);
    forall k, x
      ensures SaysWritten(MarkWritten(w, r, s).rows, k, x) ==> SaysWritten(w.rows, k, x) || (k == r && x == s)
    {
    }
  }

  lemma ApplyKeepsSafe(w: World, content: Content)
    requires Safe(w)
    ensures Safe(Applied(w, content))
    ensures forall s :: !SaysWritten(Applied(w, content).rows, |w.rollouts|, s)
  {
    var u := w.(rollouts := w.rollouts + [content]);
    forall s ensures !SaysWritten(u.rows, |w.rollouts|, s) {
      assert RowKey(|w.rollouts|, s) !in w.rows;
    }
    EnsureKeepsSafe(u, |w.rollouts|);
  }

  lemma SeeKeepsSafe(w: World, s: ServerId, carries: bool)
    requires Safe(w)
    ensures Safe(Sighting(w, s, carries))
    ensures forall r, x :: SaysWritten(Sighting(w, s, carries).rows, r, x) == SaysWritten(w.rows, r, x)
  {
    WeakerRowsKeepSafe(w, Sighting(w, s, carries).rows);
  }

  lemma AppendKeepsChain(q: seq<Task>, queued: Option<TaskId>, t: Task)
    requires ChainSound(q, queued) && (t.Sweep? ==> queued.None?)
    ensures ChainSound(q + [t], if t.Sweep? then Some(t.id) else queued)
  {
    forall id ensures Sweep(id) in q + [t] <==> Sweep(id) in q || t == Sweep(id) {
    }
    if t.Sweep? {
      forall i | 0 <= i < |q| ensures !q[i].Sweep? {
        var x := q[i];
        assert x in q && (x.Sweep? ==> x == Sweep(x.id));
      }
    }
  }

  lemma SyncKeepsSafe(w: World)
    requires Safe(w)
    ensures Safe(Sync(w))
  {
    hide RowsBounded, FlightsTracked, HoldsOwned, ChainSound, NewerUnwritten, NoWriteUnderWritten, SaysWritten;
    if w.queuedSync.None? { AppendKeepsChain(w.queue, w.queuedSync, Sweep(w.nextId)); }
  }

  lemma QueueKeepsSafe(w: World, s: ServerId)
    requires Safe(w)
    ensures Safe(VerifyAll(w)) && Safe(WriteForRelease(w, s))
  {
    hide RowsBounded, FlightsTracked, HoldsOwned, ChainSound, NewerUnwritten, NoWriteUnderWritten, SaysWritten;
    AppendKeepsChain(w.queue, w.queuedSync, VerifyThenSweep(w.nextId));
    AppendKeepsChain(w.queue, w.queuedSync, ForRelease(w.nextId, s));
  }

  lemma StepKeepsSafe(w: World, step: Step)
    requires Safe(w) && Enabled_(w, step)
    ensures Safe(Do(w, step))
  {
    match step
    case DoSync => SyncKeepsSafe(w);
    case DoVerifyAll => QueueKeepsSafe(w, 0);
    case DoRelease(s) => QueueKeepsSafe(w, s);
    case Start(todo, late) => StartKeepsSafe(w, todo, late);
    case Next => NextKeepsSafe(w);
    case Count(empty) => CountKeepsSafe(w, empty);
    case NoStart => NoStartKeepsSafe(w);
    case Begin => BeginKeepsSafe(w);
    case Land(op) => LandKeepsSafe(w, op);
    case Settle(op, ok) => SettleKeepsSafe(w, op, ok);
    case Resume => ResumeKeepsSafe(w);
    case Timeout => TimeoutKeepsSafe(w);
    case Check(read, todo) => CheckKeepsSafe(w, read, todo);
    case DoApply(content) => ApplyKeepsSafe(w, content);
    case See(s, carries) => SeeKeepsSafe(w, s, carries);
    case _ =>
  }

  lemma {:induction false} RunsStaySafe(w: World, steps: seq<Step>)
    requires Safe(w)
    ensures Safe(Run(w, steps))
    decreases |steps|
  {
    if steps != [] {
      var u := Run(w, steps[..|steps| - 1]);
      RunsStaySafe(w, steps[..|steps| - 1]);
      if Enabled_(u, steps[|steps| - 1]) { StepKeepsSafe(u, steps[|steps| - 1]); }
    }
  }

  // ---------- what the parts of a step touch ----------

  lemma EnsureTouches(w: World, r: int)
    ensures EnsureRows(w, r) == w.(rows := EnsureRows(w, r).rows)
  {
  }

  lemma GoOnTouches(w: World, r: int, s: ServerId, after: After)
    ensures GoOn(w, r, s, after) == w.(pc := GoOn(w, r, s, after).pc)
  {
  }

  lemma FailTouches(w: World, r: int, s: ServerId)
    ensures FailIfStillActive(w, r, s) == w.(rows := FailIfStillActive(w, r, s).rows)
    ensures forall k, x :: SaysWritten(FailIfStillActive(w, r, s).rows, k, x) ==> SaysWritten(w.rows, k, x)
  {
  }

  lemma FailGoOnTouches(w: World, r: int, s: ServerId, after: After)
    ensures
      var u := GoOn(FailIfStillActive(w, r, s), r, s, after);
      && u == w.(rows := u.rows, pc := u.pc)
      && forall k, x :: SaysWritten(u.rows, k, x) ==> SaysWritten(w.rows, k, x)
  {
    hide GoOn, FailIfStillActive;
    FailTouches(w, r, s);
    GoOnTouches(FailIfStillActive(w, r, s), r, s, after);
  }

  // ---------- steps that only move the turn on ----------

  /** No call starts or settles, no file changes, no hold ends, no box goes
      idle, no row is marked written. */
  ghost predicate Quiet(w: World, u: World) {
    && u.ops == w.ops && u.inFlight == w.inFlight && u.files == w.files && u.rollouts == w.rollouts
    && w.nextId <= u.nextId
    && (forall h | h in w.open :: h in u.open)
    && (forall h | h in u.open :: h in w.open || h >= w.nextId)
    && (forall r, s :: SaysWritten(u.rows, r, s) ==> SaysWritten(w.rows, r, s))
    && (forall s | s in u.servers && u.servers[s].status == Idle :: s in w.servers && w.servers[s].status == Idle)
  }

  lemma QuietChain(w: World, u: World, v: World)
    requires Quiet(w, u) && Quiet(u, v)
    ensures Quiet(w, v)
  {
  }

  lemma EnsureIsQuiet(w: World, r: int)
    ensures Quiet(w, EnsureRows(w, r))
  {
    var u := EnsureRows(w, r);
    forall k, s ensures SaysWritten(u.rows, k, s) ==> SaysWritten(w.rows, k, s) {
      assert RowKey(k, s) in w.rows ==> u.rows[RowKey(k, s)] == w.rows[RowKey(k, s)];
    }
  }

  lemma HeldIsQuiet(w: World, r: int, s: ServerId, after: After)
    requires s in w.servers
    ensures Quiet(w, WriteHeld(w, r, s, after))
  {
    hide GoOn, FailIfStillActive;
    FailGoOnTouches(w, r, s, after);
    GoOnTouches(w, r, s, after);
  }

  lemma BeginReleaseIsQuiet(w: World, s: ServerId, late: bool)
    ensures Quiet(w, BeginRelease(w, s, late))
  {
    hide WriteHeld, EnsureRows, NeedsWrite, SaysWritten, Quiet;
    MovedIsQuiet(w, Free);
    if Active(w).Some? && s in w.servers {
      var r := Active(w).value;
      var u := EnsureRows(w, r);
      EnsureIsQuiet(w, r);
      EnsureTouches(w, r);
      HeldIsQuiet(u, r, s, Done);
      QuietChain(w, u, WriteHeld(u, r, s, Done));
      MovedIsQuiet(u, Free);
      QuietChain(w, u, u.(pc := Free));
      MovedIsQuiet(u, Preparing(r, s, None, AwaitLate));
      QuietChain(w, u, u.(pc := Preparing(r, s, None, AwaitLate)));
    }
  }

  lemma MovedIsQuiet(w: World, pc: Pc)
    ensures Quiet(w, w.(pc := pc))
  {
  }

  lemma StartIsQuiet(w: World, todo: seq<ServerId>, late: bool)
    requires w.queue != []
    ensures Quiet(w, StartTask(w, todo, late))
  {
    var u := Popped(w);
    assert Quiet(w, u);
    hide BeginRelease, EnsureRows, Quiet, Popped, BeginPass;
    match w.queue[0]
    case Sweep(_) =>
      BeginPassIsQuiet(u, todo);
      QuietChain(w, u, BeginPass(u, todo));
    case VerifyThenSweep(_) =>
      BeginVerifyIsQuiet(u, todo);
      QuietChain(w, u, StartTask(w, todo, late));
    case ForRelease(_, s) =>
      BeginReleaseIsQuiet(u, s, late);
      QuietChain(w, u, BeginRelease(u, s, late));
  }

  lemma BeginPassIsQuiet(w: World, todo: seq<ServerId>)
    ensures Quiet(w, BeginPass(w, todo))
  {
    hide EnsureRows;
    if Active(w).Some? {
      EnsureIsQuiet(w, Active(w).value);
      EnsureTouches(w, Active(w).value);
    }
  }

  lemma BeginVerifyIsQuiet(w: World, todo: seq<ServerId>)
    ensures Quiet(w, w.(pc := Free))
    ensures Active(w).Some? ==> Quiet(w, EnsureRows(w, Active(w).value).(pc := Verifying(Active(w).value, todo)))
  {
    hide EnsureRows;
    if Active(w).Some? {
      EnsureIsQuiet(w, Active(w).value);
      EnsureTouches(w, Active(w).value);
    }
  }

  lemma NextIsQuiet(w: World)
    requires w.pc.InPass?
    ensures Quiet(w, PassNext(w))
  {
    hide WriteHeld;
    if w.pc.todo != [] && w.pc.todo[0] in w.servers {
      HeldIsQuiet(w, w.pc.rollout, w.pc.todo[0], Rest(w.pc.todo[1..]));
    }
  }

  predicate MovesOnly(step: Step) {
    step.DoSync? || step.DoVerifyAll? || step.DoRelease? || step.Start? || step.Next? || step.Timeout? || step.LateOver?
  }

  lemma MovesAreQuiet(w: World, step: Step)
    requires Enabled_(w, step) && MovesOnly(step)
    ensures Quiet(w, Do(w, step))
  {
    hide StartTask, PassNext, TimedOut, Unhold, Sync, VerifyAll, WriteForRelease, Quiet;
    match step
    case Start(todo, late) => StartIsQuiet(w, todo, late);
    case Next => NextIsQuiet(w);
    case Timeout => TimeoutIsQuiet(w);
    case LateOver => MovedIsQuiet(w, Free);
    case DoSync => QueueingIsQuiet(w, 0);
    case DoVerifyAll => QueueingIsQuiet(w, 0);
    case DoRelease(s) => QueueingIsQuiet(w, s);
    case _ =>
  }

  lemma QueueingIsQuiet(w: World, s: ServerId)
    ensures Quiet(w, Sync(w)) && Quiet(w, VerifyAll(w)) && Quiet(w, WriteForRelease(w, s))
  {
    hide SaysWritten;
  }

  lemma TimeoutIsQuiet(w: World)
    requires w.pc.Waiting?
    ensures Quiet(w, TimedOut(w))
  {
    hide GoOn, FailIfStillActive;
    FailGoOnTouches(w, w.pc.rollout, w.pc.server, w.pc.after);
  }

  // ---------- the other steps ----------

  lemma CheckTouches(w: World, read: bool, todo: seq<ServerId>)
    requires Enabled_(w, Check(read, todo))
    ensures Verified(w, read, todo) == w.(rows := Verified(w, read, todo).rows, pc := Verified(w, read, todo).pc)
  {
    hide VerifiedOne, EnsureRows;
    if w.pc.todo != [] {
      VerifiedOneTouches(w.(pc := Verifying(w.pc.rollout, w.pc.todo[1..])), read, w.pc.rollout, w.pc.todo[0]);
    } else if Active(w).Some? {
      EnsureTouches(w, Active(w).value);
    }
  }

  lemma VerifiedOneTouches(w: World, read: bool, r: int, s: ServerId)
    requires 0 <= r < |w.rollouts|
    ensures VerifiedOne(w, read, r, s) == w.(rows := VerifiedOne(w, read, r, s).rows)
  {
    hide NeedsWrite, SaysWritten, FileOf, MarkWritten, MarkPending;
    MarksTouch(w, r, s);
  }

  lemma MarksTouch(w: World, r: int, s: ServerId)
    ensures MarkWritten(w, r, s) == w.(rows := MarkWritten(w, r, s).rows)
    ensures MarkPending(w, r, s) == w.(rows := MarkPending(w, r, s).rows)
  {
    hide NeedsWrite;
  }

  lemma ResumeTouches(w: World)
    requires Enabled_(w, Resume)
    ensures Resumed(w) == w.(rows := Resumed(w).rows, pc := Resumed(w).pc)
  {
    hide GoOn;
    var p := w.pc;
    GoOnTouches(w, p.rollout, p.server, p.after);
    GoOnTouches(MarkWritten(w, p.rollout, p.server), p.rollout, p.server, p.after);
    GoOnTouches(FailIfStillActive(w, p.rollout, p.server), p.rollout, p.server, p.after);
  }

  lemma ReleaseTouches(w: World, s: ServerId, h: Option<HoldId>)
    ensures
      var u := Release_(w, s, h);
      && u == w.(servers := u.servers, holds := u.holds, open := u.open)
      && u.open == (if h.Some? then w.open - {h.value} else w.open)
  {
    hide Unhold;
    if h.Some? { UnholdTouches(w, s, h.value); }
  }

  lemma CountTouches(w: World, empty: bool)
    requires w.pc.Counting?
    ensures
      var u := Counted(w, empty);
      && u == w.(servers := u.servers, holds := u.holds, open := u.open, pc := u.pc)
      && u.open == (if empty then w.open else w.open - {w.pc.hold})
      && u.servers == (if empty then w.servers else Unhold(w, w.pc.server, w.pc.hold).servers)
  {
    hide Unhold, GoOn;
    var p := w.pc;
    UnholdTouches(w, p.server, p.hold);
    GoOnTouches(Unhold(w, p.server, p.hold), p.rollout, p.server, p.after);
  }

  lemma NoStartTouches(w: World)
    requires w.pc.Preparing?
    ensures
      var u := PrepareFailed(w);
      && u == w.(servers := u.servers, holds := u.holds, open := u.open, rows := u.rows, pc := u.pc)
      && u.open == (if w.pc.held.Some? then w.open - {w.pc.held.value} else w.open)
      && u.servers == Release_(w, w.pc.server, w.pc.held).servers
      && forall k, x :: SaysWritten(u.rows, k, x) ==> SaysWritten(w.rows, k, x)
  {
    hide Release_, GoOn, FailIfStillActive;
    var p := w.pc;
    ReleaseTouches(w, p.server, p.held);
    FailGoOnTouches(Release_(w, p.server, p.held), p.rollout, p.server, p.after);
  }

  lemma SettleTouches(w: World, op: OpId, ok: bool)
    requires op in w.ops
    ensures
      var o, u := w.ops[op], Settled(w, op, ok);
      var v := w.(ops := w.ops - {op}, inFlight := w.inFlight - {o.server});
      && u == v.(servers := u.servers, holds := u.holds, open := u.open, pc := u.pc)
      && u.open == (if o.hold.Some? then w.open - {o.hold.value} else w.open)
      && u.servers == Release_(v, o.server, o.hold).servers
  {
    hide Release_;
    var o := w.ops[op];
    ReleaseTouches(w.(ops := w.ops - {op}, inFlight := w.inFlight - {o.server}), o.server, o.hold);
  }

  // ---------- one write at a time ----------

  /** Whatever times out and lands late, no box has two writes in flight. */
  lemma OneWriteAtATime(w: World, steps: seq<Step>, o: OpId, p: OpId)
    requires Fresh(w)
    requires o in Run(w, steps).ops && p in Run(w, steps).ops
    requires Run(w, steps).ops[o].server == Run(w, steps).ops[p].server
    ensures o == p
  {
    FreshIsSafe(w);
    RunsStaySafe(w, steps);
  }

  // ---------- holds ----------

  /** A hold is open as long as its write is in flight. */
  lemma HeldUntilSettled(w: World, steps: seq<Step>, o: OpId)
    requires Fresh(w) && o in Run(w, steps).ops && Run(w, steps).ops[o].hold.Some?
    ensures Owes(Run(w, steps).open, Run(w, steps).ops[o].hold.value, Run(w, steps).ops[o].server)
  {
    FreshIsSafe(w);
    RunsStaySafe(w, steps);
  }

  /** What ends a hold is the settling of its own write, or its own task
      giving up before a write started. */
  lemma HoldEndsByItsOwner(w: World, step: Step, h: HoldId)
    requires Enabled_(w, step) && h in w.open && h !in Do(w, step).open
    ensures (step.Settle? && w.ops[step.op].hold == Some(h))
         || (PcHold(w.pc) == Some(h) && (step == Count(false) || step == NoStart))
  {
    OpenAfter(w, step);
  }

  /** The hold a step ends. */
  function Ends(w: World, step: Step): Option<HoldId> {
    match step
    case Settle(op, _) => if op in w.ops then w.ops[op].hold else None
    case Count(empty) => if empty then None else PcHold(w.pc)
    case NoStart => PcHold(w.pc)
    case _ => None
  }

  lemma OpenAfter(w: World, step: Step)
    requires Enabled_(w, step)
    ensures w.nextId <= Do(w, step).nextId
    ensures forall h | h in w.open && Ends(w, step) != Some(h) :: h in Do(w, step).open
    ensures forall h | h in Do(w, step).open :: h >= w.nextId || (h in w.open && Ends(w, step) != Some(h))
  {
    hide StartTask, PassNext, TimedOut, Counted, PrepareFailed, Started, Landed, Settled, Resumed, Verified, Applied;
    hide Sighting;
    match step
    case Check(read, todo) => CheckTouches(w, read, todo);
    case Count(empty) => CountTouches(w, empty);
    case NoStart => NoStartTouches(w);
    case Begin => BeginTouches(w);
    case Land(op) => LandTouches(w, op);
    case Settle(op, ok) => SettleTouches(w, op, ok);
    case Resume => ResumeTouches(w);
    case DoApply(content) => ApplyTouches(w, content);
    case See(s, carries) => SeeTouches(w, s, carries);
    case Outside(_, _) =>
    case OtherTakes(_) =>
    case OtherDrops(_) =>
    case _ => MovesAreQuiet(w, step);
  }

  lemma BeginTouches(w: World)
    requires w.pc.Preparing?
    ensures
      var u := Started(w);
      u == w.(ops := u.ops, inFlight := u.inFlight, pc := u.pc, nextId := w.nextId + 1)
  {
  }

  lemma LandTouches(w: World, op: OpId)
    requires op in w.ops
    ensures Landed(w, op) == w.(files := Landed(w, op).files)
  {
  }

  lemma ApplyTouches(w: World, content: Content)
    ensures Applied(w, content) == w.(rollouts := w.rollouts + [content], rows := Applied(w, content).rows)
  {
  }

  lemma SeeTouches(w: World, s: ServerId, carries: bool)
    ensures Sighting(w, s, carries) == w.(rows := Sighting(w, s, carries).rows)
  {
  }

  lemma NeverReopened(w: World, step: Step, h: HoldId)
    requires Enabled_(w, step) && h < w.nextId && h !in w.open
    ensures h < Do(w, step).nextId && h !in Do(w, step).open
  {
    OpenAfter(w, step);
  }

  /** A hold that has ended never opens again. */
  lemma {:induction false} EndedForGood(w: World, steps: seq<Step>, h: HoldId)
    requires h < w.nextId && h !in w.open
    ensures h < Run(w, steps).nextId && h !in Run(w, steps).open
    decreases |steps|
  {
    if steps != [] {
      var u := Run(w, steps[..|steps| - 1]);
      EndedForGood(w, steps[..|steps| - 1], h);
      if Enabled_(u, steps[|steps| - 1]) { NeverReopened(u, steps[|steps| - 1], h); }
    }
  }

  /** With no task running and nothing in flight every hold has ended. */
  lemma AllHoldsEndAtRest(w: World, steps: seq<Step>)
    requires Fresh(w) && Run(w, steps).pc.Free? && Run(w, steps).ops == map[]
    ensures Run(w, steps).open == map[]
  {
    FreshIsSafe(w);
    RunsStaySafe(w, steps);
    var u := Run(w, steps);
    forall h ensures h !in u.open { assert h in u.open ==> OwedByCall(u.ops, h); }
  }

  lemma UnholdIdles(w: World, s: ServerId, h: HoldId, x: ServerId)
    requires x in w.servers && w.servers[x].status != Idle && Unhold(w, s, h).servers[x].status == Idle
    ensures x == s && s in w.holds && w.holds[s] == Balance && !w.servers[s].inMatch
  {
  }

  /** The box a step of the writer lets go. */
  ghost predicate LetsGo(w: World, step: Step, s: ServerId) {
    || (step.Settle? && step.op in w.ops && w.ops[step.op].server == s)
    || (step.Count? && w.pc.Counting? && w.pc.server == s)
    || (step.NoStart? && w.pc.Preparing? && w.pc.server == s)
  }

  lemma ReleaseIdles(w: World, s: ServerId, h: Option<HoldId>, x: ServerId)
    requires x in w.servers && w.servers[x].status != Idle && Release_(w, s, h).servers[x].status == Idle
    ensures x == s && s in w.holds && w.holds[s] == Balance && !w.servers[s].inMatch
  {
    if h.Some? { UnholdIdles(w, s, h.value, x); }
  }

  lemma IdlesOwnHold(w: World, step: Step, s: ServerId)
    requires Enabled_(w, step) && !step.Outside?
    requires s in w.servers && w.servers[s].status != Idle
    requires s in Do(w, step).servers && Do(w, step).servers[s].status == Idle
    ensures LetsGo(w, step, s) && s in w.holds && w.holds[s] == Balance && !w.servers[s].inMatch
  {
    hide StartTask, PassNext, TimedOut, Counted, PrepareFailed, Started, Landed, Settled, Resumed, Verified, Applied;
    hide Sighting;
    match step
    case Check(read, todo) => CheckTouches(w, read, todo);
    case Count(empty) =>
      CountTouches(w, empty);
      if !empty { UnholdIdles(w, w.pc.server, w.pc.hold, s); }
    case NoStart =>
      NoStartTouches(w);
      ReleaseIdles(w, w.pc.server, w.pc.held, s);
    case Settle(op, ok) =>
      SettleTouches(w, op, ok);
      ReleaseIdles(w.(ops := w.ops - {op}, inFlight := w.inFlight - {w.ops[op].server}), w.ops[op].server,
                   w.ops[op].hold, s);
    case Begin => BeginTouches(w);
    case Land(op) => LandTouches(w, op);
    case Resume => ResumeTouches(w);
    case DoApply(content) => ApplyTouches(w, content);
    case See(x, carries) => SeeTouches(w, x, carries);
    case OtherTakes(_) =>
    case OtherDrops(_) =>
    case _ => MovesAreQuiet(w, step);
  }

  lemma LetGoIsClear(w: World, step: Step, s: ServerId)
    requires Safe(w) && Enabled_(w, step) && LetsGo(w, step, s)
    ensures s !in Do(w, step).inFlight
  {
    hide Counted, PrepareFailed, Settled;
    match step
    case Count(empty) => CountTouches(w, empty);
    case NoStart => NoStartTouches(w);
    case Settle(op, ok) => SettleTouches(w, op, ok);
  }

  /** The writer returns a box to idle only as the end of its own hold on it,
      and never while a write to it is in flight. */
  lemma NeverIdlesEarly(w: World, step: Step, s: ServerId)
    requires Safe(w) && Enabled_(w, step) && !step.Outside?
    requires s in w.servers && w.servers[s].status != Idle
    requires s in Do(w, step).servers && Do(w, step).servers[s].status == Idle
    ensures s in w.holds && w.holds[s] == Balance && !w.servers[s].inMatch
    ensures forall o | o in Do(w, step).ops :: Do(w, step).ops[o].server != s
  {
    IdlesOwnHold(w, step, s);
    LetGoIsClear(w, step, s);
    StepKeepsSafe(w, step);
  }

  // ---------- sync ----------

  /** The step that starts the sweep `id`. */
  ghost predicate StartsSweep(w: World, step: Step, id: TaskId) {
    step.Start? && Enabled_(w, step) && w.queue[0] == Sweep(id)
  }

  lemma HeldKeepsQueue(w: World, r: int, s: ServerId, after: After)
    requires s in w.servers
    ensures WriteHeld(w, r, s, after).queue == w.queue
  {
    hide GoOn, FailIfStillActive;
    FailGoOnTouches(w, r, s, after);
    GoOnTouches(w, r, s, after);
  }

  lemma BeginReleaseKeepsQueue(w: World, s: ServerId, late: bool)
    ensures BeginRelease(w, s, late).queue == w.queue
  {
    hide WriteHeld, EnsureRows;
    if Active(w).Some? && s in w.servers {
      EnsureTouches(w, Active(w).value);
      HeldKeepsQueue(EnsureRows(w, Active(w).value), Active(w).value, s, Done);
    }
  }

  lemma StartKeepsRest(w: World, todo: seq<ServerId>, late: bool)
    requires w.queue != []
    ensures StartTask(w, todo, late).queue == w.queue[1..]
  {
    hide BeginRelease, EnsureRows, PendingOf;
    var u := Popped(w);
    if Active(u).Some? { EnsureTouches(u, Active(u).value); }
    match w.queue[0]
    case ForRelease(_, s) => BeginReleaseKeepsQueue(u, s, late);
    case _ =>
  }

  lemma NextKeepsQueue(w: World)
    requires w.pc.InPass?
    ensures PassNext(w).queue == w.queue
  {
    hide WriteHeld;
    if w.pc.todo != [] && w.pc.todo[0] in w.servers {
      HeldKeepsQueue(w, w.pc.rollout, w.pc.todo[0], Rest(w.pc.todo[1..]));
    }
  }

  lemma OnlyStartDequeues(w: World, step: Step, t: Task)
    requires Enabled_(w, step) && t in w.queue && t !in Do(w, step).queue
    ensures step.Start?
  {
    hide StartTask, PassNext, TimedOut, Counted, PrepareFailed, Started, Landed, Settled, Resumed, Verified, Applied;
    hide Sighting;
    match step
    case Next => NextKeepsQueue(w);
    case Check(read, todo) => CheckTouches(w, read, todo);
    case Count(empty) => CountTouches(w, empty);
    case NoStart => NoStartTouches(w);
    case Settle(op, ok) => SettleTouches(w, op, ok);
    case Begin => BeginTouches(w);
    case Land(op) => LandTouches(w, op);
    case Resume => ResumeTouches(w);
    case Timeout => TimeoutTouches(w);
    case DoApply(content) => ApplyTouches(w, content);
    case See(x, carries) => SeeTouches(w, x, carries);
    case _ =>
  }

  lemma TimeoutTouches(w: World)
    requires w.pc.Waiting?
    ensures TimedOut(w) == w.(rows := TimedOut(w).rows, pc := TimedOut(w).pc)
  {
    hide GoOn, FailIfStillActive;
    FailGoOnTouches(w, w.pc.rollout, w.pc.server, w.pc.after);
  }

  lemma LeavesByStarting(w: World, step: Step, id: TaskId)
    requires Safe(w) && Enabled_(w, step) && Sweep(id) in w.queue && Sweep(id) !in Do(w, step).queue
    ensures StartsSweep(w, step, id)
  {
    OnlyStartDequeues(w, step, Sweep(id));
    SweepsAfterFirst(w.queue, id);
    StartKeepsRest(w, step.todo, step.late);
  }

  /** Every sync() is answered by a sweep that has not started at the call and
      stays queued until it does. */
  lemma {:induction false} SyncIsAnswered(w: World, steps: seq<Step>)
    requires Safe(w)
    ensures Sync(w).queuedSync.Some? && Sweep(Sync(w).queuedSync.value) in Sync(w).queue
    ensures
      var id := Sync(w).queuedSync.value;
      Sweep(id) in Run(Sync(w), steps).queue
      || exists k :: 0 <= k < |steps| && StartsSweep(Run(Sync(w), steps[..k]), steps[k], id)
    decreases |steps|
  {
    SyncKeepsSafe(w);
    var id := Sync(w).queuedSync.value;
    if steps != [] {
      var n := |steps| - 1;
      var u := Run(Sync(w), steps[..n]);
      SyncIsAnswered(w, steps[..n]);
      RunsStaySafe(Sync(w), steps[..n]);
      if Sweep(id) in u.queue {
        if Enabled_(u, steps[n]) && Sweep(id) !in Do(u, steps[n]).queue { LeavesByStarting(u, steps[n], id); }
      } else {
        var k :| 0 <= k < n && StartsSweep(Run(Sync(w), steps[..n][..k]), steps[..n][k], id);
        assert steps[..n][..k] == steps[..k];
      }
    }
  }

  // ---------- truth ----------

  /** If the active rollout's row says its file is on the box, it is. */
  predicate Truthful(w: World, s: ServerId) {
    Active(w).Some? && SaysWritten(w.rows, Active(w).value, s) ==> FileOf(w, s) == Some(w.rollouts[Active(w).value])
  }

  lemma QuietKeepsTruth(w: World, u: World, s: ServerId)
    requires Quiet(w, u) && Truthful(w, s)
    ensures Truthful(u, s)
  {
  }

  lemma LandKeepsTruth(w: World, op: OpId, s: ServerId)
    requires Safe(w) && Truthful(w, s) && op in w.ops
    ensures Truthful(Landed(w, op), s)
  {
  }

  /** What a row says after the turn resumes, and that it then tells the truth. */
  lemma ResumeRows(w: World)
    requires Safe(w) && Enabled_(w, Resume)
    ensures
      var p, u := w.pc, Resumed(w);
      && (forall k, x :: SaysWritten(u.rows, k, x) ==> SaysWritten(w.rows, k, x) || (k == p.rollout && x == p.server))
      && (SaysWritten(u.rows, p.rollout, p.server) ==>
            Active(w) == Some(p.rollout) && FileOf(w, p.server) == Some(w.rollouts[p.rollout]))
  {
    hide GoOn;
    var p := w.pc;
    GoOnTouches(w, p.rollout, p.server, p.after);
    GoOnTouches(MarkWritten(w, p.rollout, p.server), p.rollout, p.server, p.after);
    GoOnTouches(FailIfStillActive(w, p.rollout, p.server), p.rollout, p.server, p.after);
    FailTouches(w, p.rollout, p.server);
  }

  lemma ResumeKeepsTruth(w: World, s: ServerId)
    requires Safe(w) && Truthful(w, s) && Enabled_(w, Resume)
    ensures Truthful(Resumed(w), s)
  {
    hide Resumed;
    ResumeTouches(w);
    ResumeRows(w);
  }

  /** The rows after the boot check of one box. */
  lemma CheckRows(w: World, read: bool, todo: seq<ServerId>)
    requires Enabled_(w, Check(read, todo)) && w.pc.todo != []
    ensures
      var r, s, u := w.pc.rollout, w.pc.todo[0], Verified(w, read, todo);
      && (forall k, x :: SaysWritten(u.rows, k, x) ==> SaysWritten(w.rows, k, x) || (k == r && x == s))
      && (SaysWritten(u.rows, r, s) ==> SaysWritten(w.rows, r, s) || FileOf(w, s) == Some(w.rollouts[r]))
      && (read && s in w.servers && w.servers[s].reachable && SaysWritten(u.rows, r, s) ==>
            FileOf(w, s) == Some(w.rollouts[r]))
  {
  }

  lemma BeginPassKeepsTruth(w: World, todo: seq<ServerId>, s: ServerId)
    requires Truthful(w, s)
    ensures Truthful(BeginPass(w, todo), s)
  {
    hide EnsureRows;
    if Active(w).Some? {
      EnsureTouches(w, Active(w).value);
      EnsureIsQuiet(w, Active(w).value);
    }
  }

  lemma VerifyDoneKeepsTruth(w: World, read: bool, todo: seq<ServerId>, s: ServerId)
    requires Truthful(w, s) && Enabled_(w, Check(read, todo)) && w.pc.todo == []
    ensures Truthful(Verified(w, read, todo), s)
  {
    hide BeginPass;
    BeginPassKeepsTruth(w, todo, s);
  }

  lemma CheckKeepsTruth(w: World, read: bool, todo: seq<ServerId>, s: ServerId)
    requires Truthful(w, s) && Enabled_(w, Check(read, todo)) && w.pc.todo != []
    ensures Truthful(Verified(w, read, todo), s)
  {
    hide Verified;
    CheckTouches(w, read, todo);
    CheckRows(w, read, todo);
  }

  lemma SeeKeepsTruth(w: World, x: ServerId, carries: bool, s: ServerId)
    requires Safe(w) && Truthful(w, s)
    ensures Truthful(Sighting(w, x, carries), s)
  {
    hide Safe, Sighting;
    SeeKeepsSafe(w, x, carries);
    SeeTouches(w, x, carries);
  }

  lemma ApplyKeepsTruth(w: World, content: Content, s: ServerId)
    requires Safe(w) && Truthful(w, s)
    ensures Truthful(Applied(w, content), s)
  {
    hide Applied;
    ApplyKeepsSafe(w, content);
    ApplyTouches(w, content);
  }

  /** The files, the rollouts and what the rows say are as they were, or less. */
  ghost predicate SaysNoMore(w: World, u: World) {
    && u.rollouts == w.rollouts && u.files == w.files
    && forall r, x :: SaysWritten(u.rows, r, x) ==> SaysWritten(w.rows, r, x)
  }

  lemma SaysNoMoreKeepsTruth(w: World, u: World, s: ServerId)
    requires Truthful(w, s) && SaysNoMore(w, u)
    ensures Truthful(u, s)
  {
  }

  predicate MarksNothing(step: Step) {
    step.Settle? || step.Count? || step.NoStart? || step.Begin? || step.Outside? || step.OtherTakes? || step.OtherDrops?
  }

  lemma OthersSayNoMore(w: World, step: Step)
    requires Enabled_(w, step) && MarksNothing(step)
    ensures SaysNoMore(w, Do(w, step))
  {
    hide Counted, PrepareFailed, Started, Settled;
    match step
    case Settle(op, ok) => SettleTouches(w, op, ok);
    case Count(empty) => CountTouches(w, empty);
    case NoStart => NoStartTouches(w);
    case Begin => BeginTouches(w);
    case _ =>
  }

  lemma StepKeepsTruth(w: World, step: Step, s: ServerId)
    requires Safe(w) && Truthful(w, s) && Enabled_(w, step)
    ensures Truthful(Do(w, step), s)
  {
    hide Safe, Truthful, Quiet, SaysNoMore;
    hide StartTask, PassNext, TimedOut, Counted, PrepareFailed, Started, Landed, Settled, Resumed, Verified, Applied;
    hide Sighting;
    if MovesOnly(step) {
      MovesAreQuiet(w, step);
      QuietKeepsTruth(w, Do(w, step), s);
    } else if MarksNothing(step) {
      OthersSayNoMore(w, step);
      SaysNoMoreKeepsTruth(w, Do(w, step), s);
    } else {
      match step
      case DoApply(content) => ApplyKeepsTruth(w, content, s);
      case See(x, carries) => SeeKeepsTruth(w, x, carries, s);
      case Check(read, todo) =>
        if w.pc.todo == [] {
          VerifyDoneKeepsTruth(w, read, todo, s);
        } else {
          CheckKeepsTruth(w, read, todo, s);
        }
      case Land(op) => LandKeepsTruth(w, op, s);
      case Resume => ResumeKeepsTruth(w, s);
    }
  }

  /** Every box whose row told the truth still has a row that does. */
  ghost predicate KeptTrue(w: World, u: World) {
    forall s | Truthful(w, s) :: Truthful(u, s)
  }

  lemma StepKeepsAll(w: World, step: Step)
    requires Safe(w) && Enabled_(w, step)
    ensures Safe(Do(w, step)) && KeptTrue(w, Do(w, step))
  {
    hide Safe, Truthful, Do;
    StepKeepsSafe(w, step);
    forall s | Truthful(w, s) ensures Truthful(Do(w, step), s) { StepKeepsTruth(w, step, s); }
  }

  /** Over every interleaving of applies, timeouts, late landings and retries a
      truthful row stays truthful. */
  lemma {:induction false} RunsKeepTruth(w: World, steps: seq<Step>, s: ServerId)
    requires Safe(w) && Truthful(w, s)
    ensures Truthful(Run(w, steps), s)
    decreases |steps|
  {
    if steps != [] {
      var u := Run(w, steps[..|steps| - 1]);
      RunsStaySafe(w, steps[..|steps| - 1]);
      RunsKeepTruth(w, steps[..|steps| - 1], s);
      if Enabled_(u, steps[|steps| - 1]) { StepKeepsTruth(u, steps[|steps| - 1], s); }
    }
  }

  /** An apply makes every row truthful, whatever the rows said before. */
  lemma ApplyIsTruthful(w: World, content: Content, steps: seq<Step>, s: ServerId)
    requires Safe(w)
    ensures Truthful(Run(Applied(w, content), steps), s)
  {
    ApplyKeepsSafe(w, content);
    RunsKeepTruth(Applied(w, content), steps, s);
  }

  lemma CheckedIsTruthful(w: World, todo: seq<ServerId>)
    requires Safe(w) && Enabled_(w, Check(true, todo)) && w.pc.todo != []
    requires w.pc.todo[0] in w.servers && w.servers[w.pc.todo[0]].reachable
    ensures Truthful(Verified(w, true, todo), w.pc.todo[0])
  {
    hide Verified;
    CheckTouches(w, true, todo);
    CheckRows(w, true, todo);
    assert Active(w) == Some(w.pc.rollout) || !SaysWritten(w.rows, Active(w).value, w.pc.todo[0]);
  }

  /** So does the boot check, for a box it can read: a row that lied is put
      back to pending, and the box stays truthful from then on. */
  lemma BootCheckIsTruthful(w: World, todo: seq<ServerId>, steps: seq<Step>)
    requires Safe(w) && Enabled_(w, Check(true, todo)) && w.pc.todo != []
    requires w.pc.todo[0] in w.servers && w.servers[w.pc.todo[0]].reachable
    ensures Truthful(Run(Verified(w, true, todo), steps), w.pc.todo[0])
  {
    CheckKeepsSafe(w, true, todo);
    CheckedIsTruthful(w, todo);
    RunsKeepTruth(Verified(w, true, todo), steps, w.pc.todo[0]);
  }

  /** A write that is marked tells the truth even where the row did not before. */
  lemma MarkIsTruthful(w: World)
    requires Safe(w) && Enabled_(w, Resume)
    requires SaysWritten(Resumed(w).rows, w.pc.rollout, w.pc.server)
    ensures Active(w) == Some(w.pc.rollout) && Truthful(Resumed(w), w.pc.server)
  {
    hide Resumed;
    ResumeTouches(w);
    ResumeRows(w);
  }

  // ---------- what each step of the writer keeps ----------

  lemma OneSweepQueued(w: World)
    requires Safe(w)
    ensures forall id :: Sweep(id) in w.queue <==> w.queuedSync == Some(id)
  {
  }

  /** The call that starts is the only one against its box, and the only one to end its hold. */
  lemma OneCallABox(w: World)
    requires Safe(w) && w.pc.Preparing?
    ensures w.nextId !in w.ops && forall o | o in w.ops :: w.ops[o].server != w.pc.server
    ensures w.pc.held.Some? ==> w.pc.held.value in w.open && forall o | o in w.ops :: w.ops[o].hold != w.pc.held
  {
  }

  ghost predicate Keeps(w: World, u: World) {
    Safe(u) && KeptTrue(w, u)
  }

  lemma ApplyKeepsAll(w: World, content: Content)
    requires Safe(w)
    ensures Keeps(w, Applied(w, content))
  {
    hide Safe, KeptTrue, Applied;
    StepKeepsAll(w, DoApply(content));
  }

  lemma SeeKeepsAll(w: World, s: ServerId, carries: bool)
    requires Safe(w)
    ensures Keeps(w, Sighting(w, s, carries))
  {
    hide Safe, KeptTrue, Sighting;
    StepKeepsAll(w, See(s, carries));
  }

  lemma SyncKeepsAll(w: World)
    requires Safe(w)
    ensures Keeps(w, Sync(w))
  {
    hide Safe, KeptTrue, Sync;
    StepKeepsAll(w, DoSync);
  }

  lemma VerifyAllKeepsAll(w: World)
    requires Safe(w)
    ensures Keeps(w, VerifyAll(w))
  {
    hide Safe, KeptTrue, VerifyAll;
    StepKeepsAll(w, DoVerifyAll);
  }

  lemma ReleaseKeepsAll(w: World, s: ServerId)
    requires Safe(w)
    ensures Keeps(w, WriteForRelease(w, s))
  {
    hide Safe, KeptTrue, WriteForRelease;
    StepKeepsAll(w, DoRelease(s));
  }

  lemma StartKeepsAll(w: World, todo: seq<ServerId>, late: bool)
    requires Safe(w) && Enabled_(w, Start(todo, late))
    ensures Keeps(w, StartTask(w, todo, late))
  {
    hide Safe, KeptTrue, StartTask;
    StepKeepsAll(w, Start(todo, late));
  }

  lemma NextKeepsAll(w: World)
    requires Safe(w) && w.pc.InPass?
    ensures Keeps(w, PassNext(w))
  {
    hide Safe, KeptTrue, PassNext;
    StepKeepsAll(w, Next);
  }

  lemma CountKeepsAll(w: World, empty: bool)
    requires Safe(w) && w.pc.Counting?
    ensures Keeps(w, Counted(w, empty))
  {
    hide Safe, KeptTrue, Counted;
    StepKeepsAll(w, Count(empty));
  }

  lemma NoStartKeepsAll(w: World)
    requires Safe(w) && w.pc.Preparing?
    ensures Keeps(w, PrepareFailed(w))
  {
    hide Safe, KeptTrue, PrepareFailed;
    StepKeepsAll(w, NoStart);
  }

  lemma BeginKeepsAll(w: World)
    requires Safe(w) && w.pc.Preparing?
    ensures Keeps(w, Started(w))
  {
    hide Safe, KeptTrue, Started;
    StepKeepsAll(w, Begin);
  }

  lemma SettleKeepsAll(w: World, op: OpId, ok: bool)
    requires Safe(w) && op in w.ops
    ensures Keeps(w, Settled(w, op, ok))
  {
    hide Safe, KeptTrue, Settled;
    StepKeepsAll(w, Settle(op, ok));
  }

  lemma ResumeKeepsAll(w: World)
    requires Safe(w) && w.pc.Waiting? && w.pc.result.Some?
    ensures Keeps(w, Resumed(w))
  {
    assert Enabled_(w, Resume);
    hide Safe, KeptTrue, Resumed;
    StepKeepsAll(w, Resume);
  }

  lemma TimeoutKeepsAll(w: World)
    requires Safe(w) && w.pc.Waiting?
    ensures Keeps(w, TimedOut(w))
  {
    hide Safe, KeptTrue, TimedOut;
    StepKeepsAll(w, Timeout);
  }

  lemma CheckKeepsAll(w: World, read: bool, todo: seq<ServerId>)
    requires Safe(w) && w.pc.Verifying?
    ensures Keeps(w, Verified(w, read, todo))
  {
    assert Enabled_(w, Check(read, todo));
    hide Safe, KeptTrue, Verified;
    StepKeepsAll(w, Check(read, todo));
  }
}
