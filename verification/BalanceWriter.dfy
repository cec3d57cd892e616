/**
 BalanceRolloutWriter (src/balanceWriter.ts) over the tables it shares: each
 method runs to its next await and is the step of that name in RolloutWriter.
 */
module BalanceWriter {
  import opened Wrappers
  import opened RolloutWriter
  import opened RolloutWriterLaws

  /** The rollout's own patch, or a config that reads back and carries every value the rollout wrote. */
  predicate KnobValuesMatch(samePatch: bool, values: map<string, string>, seen: Option<map<string, string>>) {
    samePatch
    || (values != map[] && seen.Some? && forall k | k in values :: k in seen.value && seen.value[k] == values[k])
  }

  class BalanceRolloutWriter {
    // The tables and the boxes.
    var rollouts: seq<Content>
    var rows: map<RowKey, RowState>
    var servers: map<ServerId, Server>
    var files: map<ServerId, Content>
    // ServerHolds, shared with the release engine.
    var holds: map<ServerId, Owner>
    // The writer's own fields.
    var inFlight: map<ServerId, OpId>
    var ops: map<OpId, WriteOp>
    var open: map<HoldId, ServerId>
    var chain: seq<Task>
    var queuedSync: Option<TaskId>
    var pc: Pc
    var nextId: int

    ghost function Read(): World
      reads this
    {
      World(rollouts, rows, servers, files, holds, inFlight, ops, open, chain, queuedSync, pc, nextId)
    }

    ghost predicate Valid()
      reads this
    {
      Safe(Read())
    }

    /** A fresh process over the tables: nothing queued or running, and no hold of its own left. */
    constructor (rollouts: seq<Content>, rows: map<RowKey, RowState>, servers: map<ServerId, Server>,
                 files: map<ServerId, Content>, holds: map<ServerId, Owner>)
      requires RowsBounded(rows, |rollouts|)
      ensures Valid() && Read() == World(rollouts, rows, servers, files, holds, map[], map[], map[], [], None, Free, 0)
    {
      this.rollouts, this.rows, this.servers, this.files, this.holds := rollouts, rows, servers, files, holds;
      inFlight, ops, open, chain, queuedSync, pc, nextId := map[], map[], map[], [], None, Free, 0;
    }

    /** activeRollout. */
    method ActiveRollout() returns (r: Option<int>)
      ensures r == Active(Read())
    {
      r := if rollouts == [] then None else Some(|rollouts| - 1);
    }

    // ---------- src/balanceRollouts.ts ----------

    /** INSERT OR IGNORE a pending row for every enabled server. */
    method EnsureServerRows(rollout: int)
      modifies this`rows
      ensures Read() == EnsureRows(old(Read()), rollout)
    {
      rows := PendingOf(servers, rollout) + rows;
    }

    method MarkRow(k: RowKey, state: RowState)
      modifies this`rows
      ensures rows == old(rows)[k := state]
    {
      rows := rows[k := state];
    }

    method MarkFailed(rollout: int, s: ServerId)
      modifies this`rows
      ensures Read() == FailIfStillActive(old(Read()), rollout, s)
    {
      var active := ActiveRollout();
      if active != Some(rollout) { return; }
      if RowKey(rollout, s) in rows { MarkRow(RowKey(rollout, s), Failed); }
    }

    /** applyKnobs, once the preview let it through. */
    method ApplyKnobs(content: Content)
      requires Valid()
      modifies this`rollouts, this`rows
      ensures Read() == Applied(old(Read()), content)
      ensures Valid() && KeptTrue(old(Read()), Read())
    {
      hide Safe, KeptTrue;
      ApplyKeepsAll(Read(), content);
      rollouts := rollouts + [content];
      EnsureServerRows(|rollouts| - 1);
    }

    /** confirmOnSighting; `queued` says that the match came from the queue. */
    method ConfirmOnSighting(s: ServerId, queued: bool, samePatch: bool, values: map<string, string>,
                             seen: Option<map<string, string>>)
      requires Valid()
      modifies this`rows
      ensures Read() == Sighting(old(Read()), s, queued && KnobValuesMatch(samePatch, values, seen))
      ensures Valid() && KeptTrue(old(Read()), Read())
    {
      hide Safe, KeptTrue;
      SeeKeepsAll(Read(), s, queued && KnobValuesMatch(samePatch, values, seen));
      if !queued { return; }
      var active := ActiveRollout();
      if active.None? { return; }
      var k := RowKey(active.value, s);
      if k in rows && rows[k] == Written && KnobValuesMatch(samePatch, values, seen) { MarkRow(k, Confirmed); }
    }

    // ---------- holds ----------

    method TakeHold(s: ServerId) returns (took: Option<HoldId>)
      modifies this`servers, this`holds, this`open, this`nextId
      ensures took.Some? <==> CanHold(old(Read()), s)
      ensures took.Some? ==> took.value == old(nextId) && Read() == Hold(old(Read()), s)
      ensures took.None? ==> Read() == old(Read())
    {
      if s !in servers || servers[s].status != Idle || !servers[s].enabled || servers[s].leased { return None; }
      servers := servers[s := servers[s].(status := Reserved)];
      holds := holds[s := Balance];
      took := Some(nextId);
      open, nextId := open[nextId := s], nextId + 1;
    }

    method EndHold(s: ServerId, h: HoldId)
      modifies this`servers, this`holds, this`open
      ensures Read() == Unhold(old(Read()), s, h)
    {
      open := open - {h};
      if s !in holds || holds[s] != Balance { return; }
      holds := holds - {s};
      if s in servers && servers[s].status == Reserved && !servers[s].inMatch {
        servers := servers[s := servers[s].(status := Idle)];
      }
    }

    method EndHoldOf(s: ServerId, h: Option<HoldId>)
      modifies this`servers, this`holds, this`open
      ensures Read() == Release_(old(Read()), s, h)
    {
      if h.Some? { EndHold(s, h.value); }
    }

    // ---------- the chain ----------

    /** A burst of calls shares one sweep: the one that is queued and has not started. */
    method SyncNow()
      requires Valid()
      modifies this`chain, this`queuedSync, this`nextId
      ensures Read() == Sync(old(Read()))
      ensures Valid() && KeptTrue(old(Read()), Read())
      ensures queuedSync.Some? && forall id :: Sweep(id) in chain <==> id == queuedSync.value
      ensures old(queuedSync).Some? ==> chain == old(chain)
    {
      hide Safe, KeptTrue;
      SyncKeepsAll(Read());
      OneSweepQueued(Sync(Read()));
      if queuedSync.Some? { return; }
      chain, queuedSync, nextId := chain + [Sweep(nextId)], Some(nextId), nextId + 1;
    }

    method VerifyAllBoxes()
      requires Valid()
      modifies this`chain, this`nextId
      ensures Read() == VerifyAll(old(Read()))
      ensures Valid() && KeptTrue(old(Read()), Read())
    {
      hide Safe, KeptTrue;
      VerifyAllKeepsAll(Read());
      chain, nextId := chain + [VerifyThenSweep(nextId)], nextId + 1;
    }

    method QueueForRelease(s: ServerId)
      requires Valid()
      modifies this`chain, this`nextId
      ensures Read() == WriteForRelease(old(Read()), s)
      ensures Valid() && KeptTrue(old(Read()), Read())
    {
      hide Safe, KeptTrue;
      ReleaseKeepsAll(Read(), s);
      chain, nextId := chain + [ForRelease(nextId, s)], nextId + 1;
    }

    /** What the turn does after a box is done with. */
    method Continue(rollout: int, s: ServerId, after: After)
      modifies this`pc
      ensures Read() == GoOn(old(Read()), rollout, s, after)
    {
      match after
      case Rest(todo) => pc := InPass(rollout, todo);
      case Done => pc := Free;
      case AwaitLate => pc := if s in inFlight then WaitingLate(s) else Free;
    }

    method StartWriteHeld(rollout: int, s: ServerId, after: After)
      requires s in servers
      modifies this
      ensures Read() == WriteHeld(old(Read()), rollout, s, after)
    {
      if !servers[s].reachable {
        MarkFailed(rollout, s);
        Continue(rollout, s, after);
        return;
      }
      var took := TakeHold(s);
      if took.None? { Continue(rollout, s, after); return; }
      pc := Counting(rollout, s, took.value, after);
    }

    method StartPass(todo: seq<ServerId>)
      modifies this`rows, this`pc
      ensures Read() == BeginPass(old(Read()), todo)
    {
      var active := ActiveRollout();
      if active.None? { pc := Free; return; }
      EnsureServerRows(active.value);
      pc := InPass(active.value, todo);
    }

    method StartForRelease(s: ServerId, late: bool)
      modifies this
      ensures Read() == BeginRelease(old(Read()), s, late)
    {
      hide WriteHeld, PendingOf;
      var active := ActiveRollout();
      if active.None? || s in inFlight || s !in servers || !servers[s].enabled { pc := Free; return; }
      var r := active.value;
      EnsureServerRows(r);
      if NeedsWrite(rows, r, s) && servers[s].status == Idle {
        StartWriteHeld(r, s, Done);
      } else if NeedsWrite(rows, r, s) && servers[s].status == Offline && !late {
        pc := Preparing(r, s, None, AwaitLate);
      } else {
        pc := Free;
      }
    }

    method StartVerify(todo: seq<ServerId>)
      modifies this`rows, this`pc
      ensures Read() ==
        match Active(old(Read()))
        case None => old(Read()).(pc := Free)
        case Some(r) => EnsureRows(old(Read()), r).(pc := Verifying(r, todo))
    {
      var active := ActiveRollout();
      if active.None? { pc := Free; return; }
      EnsureServerRows(active.value);
      pc := Verifying(active.value, todo);
    }

    method PopTask() returns (task: Task)
      requires chain != []
      modifies this`chain, this`queuedSync
      ensures task == old(chain)[0] && Read() == Popped(old(Read()))
    {
      task := chain[0];
      chain, queuedSync := chain[1..], if task.Sweep? then None else queuedSync;
    }

    method StartNextTask(todo: seq<ServerId>, late: bool)
      requires Valid() && pc.Free? && chain != [] && (chain[0].VerifyThenSweep? ==> ops == map[])
      modifies this
      ensures Read() == StartTask(old(Read()), todo, late)
      ensures Valid() && KeptTrue(old(Read()), Read())
    {
      hide Safe, KeptTrue, BeginRelease, BeginPass, EnsureRows;
      StartKeepsAll(Read(), todo, late);
      var task := PopTask();
      if task.Sweep? {
        StartPass(todo);
      } else if task.ForRelease? {
        StartForRelease(task.server, late);
      } else {
        StartVerify(todo);
      }
    }

    method NextBox()
      requires Valid() && pc.InPass?
      modifies this
      ensures Read() == PassNext(old(Read()))
      ensures Valid() && KeptTrue(old(Read()), Read())
    {
      hide Safe, KeptTrue, WriteHeld;
      NextKeepsAll(Read());
      var r, todo := pc.rollout, pc.todo;
      if todo == [] { pc := Free; return; }
      var s, rest := todo[0], todo[1..];
      if !NeedsWrite(rows, r, s) || s in inFlight { pc := InPass(r, rest); return; }
      if s !in servers || !servers[s].enabled || servers[s].status != Idle { pc := InPass(r, rest); return; }
      StartWriteHeld(r, s, Rest(rest));
    }

    method AfterCount(empty: bool)
      requires Valid() && pc.Counting?
      modifies this
      ensures Read() == Counted(old(Read()), empty)
      ensures Valid() && KeptTrue(old(Read()), Read())
    {
      hide Safe, KeptTrue;
      CountKeepsAll(Read(), empty);
      var p := pc;
      if empty { pc := Preparing(p.rollout, p.server, Some(p.hold), p.after); return; }
      EndHold(p.server, p.hold);
      Continue(p.rollout, p.server, p.after);
    }

    method CannotStart()
      requires Valid() && pc.Preparing?
      modifies this
      ensures Read() == PrepareFailed(old(Read()))
      ensures Valid() && KeptTrue(old(Read()), Read())
    {
      hide Safe, KeptTrue;
      NoStartKeepsAll(Read());
      var p := pc;
      EndHoldOf(p.server, p.held);
      MarkFailed(p.rollout, p.server);
      Continue(p.rollout, p.server, p.after);
    }

    /**
     The transport call of writeOne, tracked in `inFlight` until it settles: the only one against its box, and
     the hold's only end.
     */
    method StartOp()
      requires Valid() && pc.Preparing?
      modifies this
      ensures Read() == Started(old(Read()))
      ensures Valid() && KeptTrue(old(Read()), Read())
      ensures forall o | o in ops :: ops[o].server == old(pc).server <==> o == old(nextId)
      ensures forall h ::
        old(pc).held == Some(h) ==> h in open && forall o | o in ops :: ops[o].hold == Some(h) <==> o == old(nextId)
    {
      hide Safe, KeptTrue;
      BeginKeepsAll(Read());
      OneCallABox(Read());
      var p, op := pc, nextId;
      nextId := nextId + 1;
      ops := ops[op := WriteOp(p.server, p.rollout, p.held)];
      inFlight := inFlight[p.server := op];
      pc := Waiting(p.rollout, p.server, op, None, p.after);
    }

    /** The `finally` of the tracked call, and the text it read back. */
    method OpSettled(op: OpId, ok: bool)
      requires Valid() && op in ops
      modifies this
      ensures Read() == Settled(old(Read()), op, ok)
      ensures Valid() && KeptTrue(old(Read()), Read())
    {
      hide Safe, KeptTrue;
      SettleKeepsAll(Read(), op, ok);
      var o := ops[op];
      var result := if ok then ReadBack(if o.server in files then Some(files[o.server]) else None) else Threw;
      ops, inFlight := ops - {op}, inFlight - {o.server};
      EndHoldOf(o.server, o.hold);
      if pc.Waiting? && pc.op == op { pc := pc.(result := Some(result)); }
    }

    method AfterWrite()
      requires Valid() && pc.Waiting? && pc.result.Some?
      modifies this
      ensures Read() == Resumed(old(Read()))
      ensures Valid() && KeptTrue(old(Read()), Read())
    {
      assert 0 <= pc.rollout < |rollouts|;
      hide Safe, KeptTrue;
      ResumeKeepsAll(Read());
      var p := pc;
      if p.result.value != ReadBack(Some(rollouts[p.rollout])) {
        MarkFailed(p.rollout, p.server);
      } else {
        var active := ActiveRollout();
        if active == Some(p.rollout) && NeedsWrite(rows, p.rollout, p.server) {
          MarkRow(RowKey(p.rollout, p.server), Written);
        }
      }
      Continue(p.rollout, p.server, p.after);
    }

    method AfterTimeout()
      requires Valid() && pc.Waiting?
      modifies this
      ensures Read() == TimedOut(old(Read()))
      ensures Valid() && KeptTrue(old(Read()), Read())
    {
      hide Safe, KeptTrue;
      TimeoutKeepsAll(Read());
      var p := pc;
      MarkFailed(p.rollout, p.server);
      Continue(p.rollout, p.server, p.after);
    }

    /** One box of the boot verify; `read` says it could be read. */
    method VerifyBox(read: bool, todo: seq<ServerId>)
      requires Valid() && pc.Verifying?
      modifies this
      ensures Read() == Verified(old(Read()), read, todo)
      ensures Valid() && KeptTrue(old(Read()), Read())
    {
      assert 0 <= pc.rollout < |rollouts|;
      hide Safe, KeptTrue;
      CheckKeepsAll(Read(), read, todo);
      var r, left := pc.rollout, pc.todo;
      if left == [] { StartPass(todo); return; }
      var s := left[0];
      pc := Verifying(r, left[1..]);
      if !read || s !in servers || !servers[s].reachable { return; }
      var same := s in files && files[s] == rollouts[r];
      if same && NeedsWrite(rows, r, s) {
        MarkRow(RowKey(r, s), Written);
      } else if !same && SaysWritten(rows, r, s) {
        MarkRow(RowKey(r, s), Pending);
      }
    }
  }
}
