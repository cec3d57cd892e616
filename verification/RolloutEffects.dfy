/**
 What the rollout writer gets done: a box that can be written is, and its row says so; a write that
 fails says that, and is tried again; and each mark that rows, files and boxes get on the way.
 */
module RolloutEffects {
  import opened Wrappers
  import opened RolloutWriter
  import opened RolloutWriterLaws

  /** A box the pass may take: nothing writes to it and nobody has it. */
  ghost predicate Takeable(w: World, s: ServerId) {
    && s !in w.inFlight && s in w.servers
    && w.servers[s].status == Idle && w.servers[s].enabled && w.servers[s].reachable && !w.servers[s].leased
  }

  /** The active rollout's row for the box asks for the file. */
  ghost predicate Asks(w: World, r: int, s: ServerId) {
    && |w.rollouts| > 0 && r == |w.rollouts| - 1
    && RowKey(r, s) in w.rows && w.rows[RowKey(r, s)] in {Pending, Failed}
  }

  // ---------- runs of given steps ----------

  lemma {:induction false} RunTwo(w: World, one: seq<Step>, two: seq<Step>)
    ensures Run(w, one + two) == Run(Run(w, one), two)
    decreases |two|
  {
    hide Do, Enabled_;
    if two == [] {
      assert one + two == one;
    } else {
      var n := |two| - 1;
      assert (one + two)[..|one + two| - 1] == one + two[..n];
      RunTwo(w, one, two[..n]);
    }
  }

  lemma RunThen(w: World, steps: seq<Step>, step: Step)
    requires Enabled_(Run(w, steps), step)
    ensures Run(w, steps + [step]) == Do(Run(w, steps), step)
  {
    hide Do, Enabled_;
    assert (steps + [step])[..|steps|] == steps;
  }

  lemma RunPair(w: World, a: Step, b: Step)
    requires Enabled_(w, a) && Enabled_(Do(w, a), b)
    ensures Run(w, [a, b]) == Do(Do(w, a), b)
  {
    hide Do, Enabled_;
    RunThen(w, [], a);
    RunThen(w, [a], b);
    assert [] + [a] == [a] && [a] + [b] == [a, b];
  }

  lemma RunThree(w: World, a: Step, b: Step, c: Step)
    requires Enabled_(w, a) && Enabled_(Do(w, a), b) && Enabled_(Do(Do(w, a), b), c)
    ensures Run(w, [a, b, c]) == Do(Do(Do(w, a), b), c)
  {
    hide Do, Enabled_;
    RunPair(w, a, b);
    RunThen(w, [a, b], c);
    assert [a, b] + [c] == [a, b, c];
  }

  // ---------- which stretch of code a step is ----------

  lemma TurnSteps(w: World)
    ensures w.pc.InPass? ==> Do(w, Next) == PassNext(w)
    ensures w.pc.Counting? ==> Do(w, Count(true)) == Counted(w, true) && Do(w, Count(false)) == Counted(w, false)
    ensures w.pc.Preparing? ==> Do(w, Begin) == Started(w)
    ensures w.pc.Waiting? ==> Do(w, Timeout) == TimedOut(w)
    ensures Enabled_(w, Resume) ==> Do(w, Resume) == Resumed(w)
  {
    hide PassNext, Counted, Started, TimedOut, Resumed;
  }

  lemma CallSteps(w: World, op: OpId, ok: bool)
    requires op in w.ops
    ensures Do(w, Land(op)) == Landed(w, op) && Do(w, Settle(op, ok)) == Settled(w, op, ok)
  {
    hide Landed, Settled;
  }

  lemma OtherSteps(w: World, content: Content, s: ServerId, carries: bool)
    ensures Do(w, DoApply(content)) == Applied(w, content) && Do(w, See(s, carries)) == Sighting(w, s, carries)
  {
    hide Applied, Sighting;
  }

  lemma StartSteps(w: World, todo: seq<ServerId>, late: bool)
    requires Enabled_(w, Start(todo, late))
    ensures Do(w, Start(todo, late)) == StartTask(w, todo, late)
  {
    hide StartTask;
  }

  // ---------- the write of one box ----------

  /** Up to the call: the box is held, counted and being written. */
  const Begins := [Next, Count(true), Begin]

  ghost function Writing(w: World, s: ServerId, rest: seq<ServerId>): World
    requires s in w.servers
  {
    var r, h, op := |w.rollouts| - 1, w.nextId, w.nextId + 1;
    w.(servers := w.servers[s := w.servers[s].(status := Reserved)], holds := w.holds[s := Balance],
       open := w.open[h := s], ops := w.ops[op := WriteOp(s, r, Some(h))], inFlight := w.inFlight[s := op],
       pc := Waiting(r, s, op, None, Rest(rest)), nextId := w.nextId + 2)
  }

  lemma NextTakes(w: World, s: ServerId, rest: seq<ServerId>)
    requires Asks(w, |w.rollouts| - 1, s) && Takeable(w, s) && w.pc == InPass(|w.rollouts| - 1, [s] + rest)
    ensures PassNext(w) ==
      w.(servers := w.servers[s := w.servers[s].(status := Reserved)], holds := w.holds[s := Balance],
         open := w.open[w.nextId := s], nextId := w.nextId + 1,
         pc := Counting(|w.rollouts| - 1, s, w.nextId, Rest(rest)))
  {
    assert ([s] + rest)[1..] == rest;
    hide GoOn, FailIfStillActive;
  }

  lemma WriteBegins(w: World, s: ServerId, rest: seq<ServerId>)
    requires Asks(w, |w.rollouts| - 1, s) && Takeable(w, s) && w.pc == InPass(|w.rollouts| - 1, [s] + rest)
    ensures Run(w, Begins) == Writing(w, s, rest)
  {
    hide Do, PassNext, GoOn, Unhold;
    NextTakes(w, s, rest);
    TurnSteps(w);
    var w1 := PassNext(w);
    TurnSteps(w1);
    var w2 := Counted(w1, true);
    TurnSteps(w2);
    assert Started(w2) == Writing(w, s, rest);
    RunThree(w, Next, Count(true), Begin);
  }

  /** The boxes after a turn on an idle one: as they were, but that a box with a match is left to the match. */
  function Back(servers: map<ServerId, Server>, s: ServerId): map<ServerId, Server>
    requires s in servers
  {
    if servers[s].inMatch then servers[s := servers[s].(status := Reserved)] else servers
  }

  /** What a hold took is given back. */
  lemma GivenBack(w: World, s: ServerId, u: World, h: HoldId)
    requires s in w.servers && w.servers[s].status == Idle && h !in w.open
    requires u.servers == w.servers[s := w.servers[s].(status := Reserved)] && u.holds == w.holds[s := Balance]
    requires u.open == w.open[h := s]
    ensures Unhold(u, s, h) == u.(servers := Back(w.servers, s), holds := w.holds - {s}, open := w.open)
  {
    assert u.open - {h} == w.open && u.holds - {s} == w.holds - {s};
    assert w.servers[s := w.servers[s].(status := Reserved)][s := w.servers[s]] == w.servers;
  }

  /** The call leaves no trace but what it wrote. */
  lemma CallGone(w: World, s: ServerId, op: OpId, call: WriteOp)
    requires op !in w.ops && s !in w.inFlight
    ensures w.ops[op := call] - {op} == w.ops && w.inFlight[s := op] - {s} == w.inFlight
  {
  }

  /** No hold or call has an id not handed out yet. */
  lemma NewIds(w: World)
    requires Safe(w)
    ensures w.nextId !in w.open && w.nextId + 1 !in w.ops
  {
  }

  /** The call settles: the hold ends and the box is idle again, whatever the turn does meanwhile. */
  lemma WriteSettles(w: World, s: ServerId, rest: seq<ServerId>, u: World, ok: bool)
    requires Safe(w) && Takeable(w, s)
    requires u == Writing(w, s, rest).(files := u.files, rows := u.rows, pc := u.pc)
    ensures w.nextId + 1 in u.ops
    ensures
      var v := Settled(u, w.nextId + 1, ok);
      && v == w.(servers := Back(w.servers, s), files := u.files, rows := u.rows, holds := w.holds - {s},
                nextId := w.nextId + 2, pc := v.pc)
      && v.pc == if u.pc.Waiting? && u.pc.op == w.nextId + 1
                 then u.pc.(result := Some(if ok then ReadBack(FileOf(u, s)) else Threw)) else u.pc
  {
    NewIds(w);
    hide Safe, Unhold, FileOf;
    var op := w.nextId + 1;
    CallGone(w, s, op, u.ops[op]);
    GivenBack(w, s, u.(ops := w.ops, inFlight := w.inFlight), w.nextId);
  }

  /** Read back as it was sent. */
  lemma WriteLandsAndSettles(w: World, s: ServerId, rest: seq<ServerId>)
    requires Safe(w) && Takeable(w, s)
    requires Asks(w, |w.rollouts| - 1, s) && w.pc == InPass(|w.rollouts| - 1, [s] + rest)
    ensures
      var r, op := |w.rollouts| - 1, w.nextId + 1;
      Run(w, Begins + [Land(op), Settle(op, true)]) ==
        w.(servers := Back(w.servers, s), files := w.files[s := w.rollouts[r]], holds := w.holds - {s},
           nextId := w.nextId + 2, pc := Waiting(r, s, op, Some(ReadBack(Some(w.rollouts[r]))), Rest(rest)))
  {
    hide Do, Safe, Landed, Settled, Run;
    var r, op := |w.rollouts| - 1, w.nextId + 1;
    WriteBegins(w, s, rest);
    var w1 := Writing(w, s, rest);
    var w2 := w1.(files := w.files[s := w.rollouts[r]]);
    CallSteps(w1, op, true);
    FileLands(w1, op);
    CallSteps(w2, op, true);
    WriteSettles(w, s, rest, w2, true);
    RunTwo(w, Begins, [Land(op), Settle(op, true)]);
    RunPair(w1, Land(op), Settle(op, true));
  }

  /**
   A box that can be taken and whose row asks for the file is written in its turn: the row says so, the
   file is there, no hold is left and the box is idle again, as it was, unless a match had it.
   */
  lemma BoxIsWritten(w: World, s: ServerId, rest: seq<ServerId>)
    requires Safe(w) && Takeable(w, s)
    requires Asks(w, |w.rollouts| - 1, s) && w.pc == InPass(|w.rollouts| - 1, [s] + rest)
    ensures
      var r, op := |w.rollouts| - 1, w.nextId + 1;
      var u := Run(w, [Next, Count(true), Begin, Land(op), Settle(op, true), Resume]);
      && u.rows == w.rows[RowKey(r, s) := Written]
      && u.files == w.files[s := w.rollouts[r]]
      && u.servers == Back(w.servers, s) && (!w.servers[s].inMatch ==> u.servers[s].status == Idle)
      && u.open == w.open && u.ops == w.ops && u.inFlight == w.inFlight && u.pc == InPass(r, rest)
  {
    hide Do, Safe, Run;
    var op := w.nextId + 1;
    WriteLandsAndSettles(w, s, rest);
    var steps := Begins + [Land(op), Settle(op, true)];
    ResumeMarks(Run(w, steps));
    RunThen(w, steps, Resume);
    assert [Next, Count(true), Begin, Land(op), Settle(op, true), Resume] == steps + [Resume];
  }

  lemma FileLands(w: World, op: OpId)
    requires op in w.ops && 0 <= w.ops[op].rollout < |w.rollouts|
    ensures Landed(w, op) == w.(files := w.files[w.ops[op].server := w.rollouts[w.ops[op].rollout]])
  {
  }

  /** What the turn marks once its call has settled, exactly. */
  lemma ResumeMarks(w: World)
    requires w.pc.Waiting? && w.pc.result.Some? && 0 <= w.pc.rollout < |w.rollouts|
    ensures
      var r, s, u := w.pc.rollout, w.pc.server, Do(w, Resume);
      var k := RowKey(r, s);
      var same := w.pc.result.value == ReadBack(Some(w.rollouts[r]));
      && u == w.(rows := u.rows, pc := u.pc)
      && (w.pc.after.Rest? ==> u.pc == InPass(r, w.pc.after.todo))
      && u.rows ==
         if r != |w.rollouts| - 1 || k !in w.rows then w.rows
         else if !same then w.rows[k := Failed]
         else if w.rows[k] in {Pending, Failed} then w.rows[k := Written]
         else w.rows
  {
    hide Do, GoOn, Resumed;
    TurnSteps(w);
    var p, v := w.pc, AfterResult(w);
    ResumedIs(w);
    ResultMarks(w);
    GoesOn(v, p.rollout, p.server, p.after);
  }

  /** The rows once the result of a call is known. */
  function AfterResult(w: World): World
    requires w.pc.Waiting? && w.pc.result.Some? && 0 <= w.pc.rollout < |w.rollouts|
  {
    var r, s, k := w.pc.rollout, w.pc.server, RowKey(w.pc.rollout, w.pc.server);
    if r != |w.rollouts| - 1 || k !in w.rows then w
    else if w.pc.result.value != ReadBack(Some(w.rollouts[r])) then w.(rows := w.rows[k := Failed])
    else if w.rows[k] in {Pending, Failed} then w.(rows := w.rows[k := Written])
    else w
  }

  lemma ResultMarks(w: World)
    requires w.pc.Waiting? && w.pc.result.Some? && 0 <= w.pc.rollout < |w.rollouts|
    ensures AfterResult(w) == w.(rows := AfterResult(w).rows)
  {
  }

  lemma ResumedIs(w: World)
    requires w.pc.Waiting? && w.pc.result.Some? && 0 <= w.pc.rollout < |w.rollouts|
    ensures Resumed(w) == GoOn(AfterResult(w), w.pc.rollout, w.pc.server, w.pc.after)
  {
    hide GoOn, FailIfStillActive;
    Fails(w, w.pc.rollout, w.pc.server);
  }

  lemma GoesOn(w: World, r: int, s: ServerId, after: After)
    ensures GoOn(w, r, s, after) == w.(pc := GoOn(w, r, s, after).pc)
    ensures after.Rest? ==> GoOn(w, r, s, after).pc == InPass(r, after.todo)
  {
  }

  lemma Fails(w: World, r: int, s: ServerId)
    ensures FailIfStillActive(w, r, s) ==
      if |w.rollouts| > 0 && r == |w.rollouts| - 1 && RowKey(r, s) in w.rows then
        w.(rows := w.rows[RowKey(r, s) := Failed])
      else w
  {
  }

  /** A wait that ends first fails the active row, and leaves the call and its hold to settle. */
  lemma TimeoutMarks(w: World)
    requires w.pc.Waiting? && |w.rollouts| > 0
    ensures
      var r, s, u := w.pc.rollout, w.pc.server, Do(w, Timeout);
      && u == w.(rows := u.rows, pc := u.pc)
      && u.rows == (if r == |w.rollouts| - 1 && RowKey(r, s) in w.rows then w.rows[RowKey(r, s) := Failed] else w.rows)
      && (w.pc.after.Rest? ==> u.pc == InPass(r, w.pc.after.todo))
  {
    hide Do, GoOn, FailIfStillActive;
    TurnSteps(w);
    Fails(w, w.pc.rollout, w.pc.server);
    GoesOn(FailIfStillActive(w, w.pc.rollout, w.pc.server), w.pc.rollout, w.pc.server, w.pc.after);
  }

  lemma WriteSettlesAlone(w: World, s: ServerId, rest: seq<ServerId>, ok: bool)
    requires Safe(w) && Takeable(w, s)
    requires Asks(w, |w.rollouts| - 1, s) && w.pc == InPass(|w.rollouts| - 1, [s] + rest)
    ensures
      var r, op := |w.rollouts| - 1, w.nextId + 1;
      Run(w, Begins + [Settle(op, ok)]) ==
        w.(servers := Back(w.servers, s), holds := w.holds - {s}, nextId := w.nextId + 2,
           pc := Waiting(r, s, op, Some(if ok then ReadBack(FileOf(w, s)) else Threw), Rest(rest)))
  {
    hide Do, Safe, Settled, Run;
    var op := w.nextId + 1;
    WriteBegins(w, s, rest);
    var w1 := Writing(w, s, rest);
    CallSteps(w1, op, ok);
    WriteSettles(w, s, rest, w1, ok);
    RunThen(w, Begins, Settle(op, ok));
  }

  /** A call that throws, or after which something else is read back, fails the row; the box is free all the same. */
  lemma FailedWriteFreesTheBox(w: World, s: ServerId, rest: seq<ServerId>, ok: bool)
    requires Safe(w) && Takeable(w, s)
    requires Asks(w, |w.rollouts| - 1, s) && w.pc == InPass(|w.rollouts| - 1, [s] + rest)
    requires ok ==> FileOf(w, s) != Some(w.rollouts[|w.rollouts| - 1])
    ensures
      var r, op := |w.rollouts| - 1, w.nextId + 1;
      var u := Run(w, [Next, Count(true), Begin, Settle(op, ok), Resume]);
      && u.rows == w.rows[RowKey(r, s) := Failed] && u.files == w.files && u.servers == Back(w.servers, s)
      && u.open == w.open && u.ops == w.ops && u.inFlight == w.inFlight && u.pc == InPass(r, rest)
  {
    hide Do, Safe, Run;
    var op := w.nextId + 1;
    WriteSettlesAlone(w, s, rest, ok);
    var steps := Begins + [Settle(op, ok)];
    ResumeMarks(Run(w, steps));
    RunThen(w, steps, Resume);
    assert [Next, Count(true), Begin, Settle(op, ok), Resume] == steps + [Resume];
  }

  /** A wait that ended: once the call settles the box is free, and the row still says that it failed. */
  lemma LateCallFreesTheBox(w: World, s: ServerId, rest: seq<ServerId>, ok: bool)
    requires Safe(w) && Takeable(w, s)
    requires Asks(w, |w.rollouts| - 1, s) && w.pc == InPass(|w.rollouts| - 1, [s] + rest)
    ensures
      var r, op := |w.rollouts| - 1, w.nextId + 1;
      var u := Run(w, [Next, Count(true), Begin, Timeout, Settle(op, ok)]);
      && u.rows == w.rows[RowKey(r, s) := Failed] && u.servers == Back(w.servers, s)
      && u.open == w.open && u.ops == w.ops && u.inFlight == w.inFlight && u.pc == InPass(r, rest)
  {
    hide Do, Safe, Settled, TimedOut;
    var op := w.nextId + 1;
    WriteBegins(w, s, rest);
    var w1 := Writing(w, s, rest);
    TurnSteps(w1);
    TimeoutMarks(w1);
    var w2 := Do(w1, Timeout);
    CallSteps(w2, op, ok);
    WriteSettles(w, s, rest, w2, ok);
    var one, two := Begins, [Timeout, Settle(op, ok)];
    assert [Next, Count(true), Begin, Timeout, Settle(op, ok)] == one + two;
    RunTwo(w, one, two);
    RunPair(w1, Timeout, Settle(op, ok));
  }

  /** Players on the box: nothing is written and the box is free again. */
  lemma PlayersKeepTheBox(w: World, s: ServerId, rest: seq<ServerId>)
    requires Safe(w) && Takeable(w, s)
    requires Asks(w, |w.rollouts| - 1, s) && w.pc == InPass(|w.rollouts| - 1, [s] + rest)
    ensures
      var u := Run(w, [Next, Count(false)]);
      u == w.(servers := Back(w.servers, s), holds := w.holds - {s}, nextId := w.nextId + 1,
              pc := InPass(|w.rollouts| - 1, rest))
  {
    NewIds(w);
    hide Do, Safe, Unhold, PassNext;
    NextTakes(w, s, rest);
    TurnSteps(w);
    var w1 := PassNext(w);
    TurnSteps(w1);
    GivenBack(w, s, w1, w.nextId);
    RunPair(w, Next, Count(false));
  }

  lemma NoStartIs(w: World)
    requires w.pc.Preparing?
    ensures Do(w, NoStart) == PrepareFailed(w)
  {
    hide PrepareFailed;
  }

  /** A write that cannot even be started fails its row and frees the box. */
  lemma NoStartFreesTheBox(w: World, s: ServerId, rest: seq<ServerId>)
    requires Safe(w) && Takeable(w, s)
    requires Asks(w, |w.rollouts| - 1, s) && w.pc == InPass(|w.rollouts| - 1, [s] + rest)
    ensures
      var r, u := |w.rollouts| - 1, Run(w, [Next, Count(true), NoStart]);
      u == w.(servers := Back(w.servers, s), holds := w.holds - {s}, nextId := w.nextId + 1,
              rows := w.rows[RowKey(r, s) := Failed], pc := InPass(r, rest))
  {
    hide Do, Safe, PassNext, PrepareFailed;
    NextTakes(w, s, rest);
    TurnSteps(w);
    var w1 := PassNext(w);
    TurnSteps(w1);
    var w2 := Counted(w1, true);
    NoStartIs(w2);
    NotStarted(w, s, rest, w2);
    RunThree(w, Next, Count(true), NoStart);
  }

  lemma NotStarted(w: World, s: ServerId, rest: seq<ServerId>, u: World)
    requires Safe(w) && Takeable(w, s) && Asks(w, |w.rollouts| - 1, s)
    requires u == w.(servers := w.servers[s := w.servers[s].(status := Reserved)], holds := w.holds[s := Balance],
                     open := w.open[w.nextId := s], nextId := w.nextId + 1,
                     pc := Preparing(|w.rollouts| - 1, s, Some(w.nextId), Rest(rest)))
    ensures PrepareFailed(u) ==
      w.(servers := Back(w.servers, s), holds := w.holds - {s}, nextId := w.nextId + 1,
         rows := w.rows[RowKey(|w.rollouts| - 1, s) := Failed], pc := InPass(|w.rollouts| - 1, rest))
  {
    NewIds(w);
    hide Safe, Unhold, FailIfStillActive;
    GivenBack(w, s, u, w.nextId);
    Fails(Unhold(u, s, w.nextId), |w.rollouts| - 1, s);
  }

  // ---------- which boxes a sweep tries ----------

  /** Syncs share the sweep that has not started; a boot check or a release queues a turn of its own. */
  lemma QueuedTurns(w: World, s: ServerId)
    ensures
      var sync := Do(w, DoSync);
      && Do(sync, DoSync) == sync && sync.queuedSync.Some?
      && (w.queuedSync.Some? ==> sync == w)
      && (w.queuedSync.None? ==> |sync.queue| == |w.queue| + 1 && sync.queue[|w.queue|] == Sweep(w.nextId))
    ensures Do(w, DoVerifyAll).queue == w.queue + [VerifyThenSweep(w.nextId)]
    ensures Do(w, DoRelease(s)).queue == w.queue + [ForRelease(w.nextId, s)]
  {
    hide Do;
    QueueSteps(w, s);
    QueueSteps(Sync(w), s);
  }

  lemma QueueSteps(w: World, s: ServerId)
    ensures Do(w, DoSync) == Sync(w)
    ensures Do(w, DoVerifyAll) == VerifyAll(w) && Do(w, DoRelease(s)) == WriteForRelease(w, s)
  {
    hide Sync, VerifyAll, WriteForRelease;
  }

  /** The boot check goes through the boxes it is given. */
  lemma BootCheckBegins(w: World, todo: seq<ServerId>, late: bool)
    requires w.pc.Free? && w.queue != [] && w.queue[0].VerifyThenSweep? && w.ops == map[] && |w.rollouts| > 0
    ensures
      var r, u := |w.rollouts| - 1, Do(w, Start(todo, late));
      && u == w.(queue := w.queue[1..], rows := u.rows, pc := Verifying(r, todo))
      && (forall k | k in w.rows :: k in u.rows && u.rows[k] == w.rows[k])
      && (forall s | s in w.servers && w.servers[s].enabled :: RowKey(r, s) in u.rows)
  {
    hide Do, BeginRelease;
    StartSteps(w, todo, late);
    var r := |w.rollouts| - 1;
    forall s | s in w.servers && w.servers[s].enabled ensures RowKey(r, s) in Do(w, Start(todo, late)).rows {
      assert RowKey(r, s) in PendingOf(w.servers, r);
    }
  }

  /** After its last box the sweep's pass begins. */
  lemma BootCheckEnds(w: World, todo: seq<ServerId>)
    requires |w.rollouts| > 0 && w.pc == Verifying(|w.rollouts| - 1, [])
    ensures Do(w, Check(true, todo)) == w.(rows := Do(w, Check(true, todo)).rows, pc := InPass(|w.rollouts| - 1, todo))
  {
  }

  /** Every enabled box has a row of the active rollout once its pass begins, new ones pending and none changed. */
  lemma SweepOpensRows(w: World, todo: seq<ServerId>, late: bool)
    requires w.pc.Free? && w.queue != [] && w.queue[0].Sweep? && |w.rollouts| > 0
    ensures
      var r, u := |w.rollouts| - 1, Do(w, Start(todo, late));
      && u == w.(queue := w.queue[1..], queuedSync := None, rows := u.rows, pc := InPass(r, todo))
      && (forall k | k in w.rows :: k in u.rows && u.rows[k] == w.rows[k])
      && (forall s | s in w.servers && w.servers[s].enabled :: RowKey(r, s) in u.rows)
      && (forall k | k in u.rows && k !in w.rows ::
            u.rows[k] == Pending && k.rollout == r && k.server in w.servers && w.servers[k.server].enabled)
  {
    StartSteps(w, todo, late);
    hide Do, BeginRelease;
    var r, u := |w.rollouts| - 1, Do(w, Start(todo, late));
    forall s | s in w.servers && w.servers[s].enabled ensures RowKey(r, s) in u.rows {
      assert RowKey(r, s) in PendingOf(w.servers, r);
    }
  }

  /** It asks and nobody has it, but the site has no way to write it. */
  ghost predicate Unreachable(w: World, s: ServerId) {
    && Asks(w, |w.rollouts| - 1, s) && s !in w.inFlight && s in w.servers
    && w.servers[s].status == Idle && w.servers[s].enabled && !w.servers[s].reachable
  }

  /** A pass takes exactly the boxes that ask and can be taken. */
  lemma PassTakesExactly(w: World, s: ServerId, rest: seq<ServerId>)
    requires Safe(w) && |w.rollouts| > 0 && w.pc == InPass(|w.rollouts| - 1, [s] + rest)
    ensures
      var u := Do(w, Next);
      && (u.open != w.open <==> Asks(w, |w.rollouts| - 1, s) && Takeable(w, s))
      && (u.open == w.open ==> u == w.(rows := u.rows, pc := InPass(|w.rollouts| - 1, rest)))
      && (u.open == w.open && s in w.servers && w.servers[s].reachable ==> u.rows == w.rows)
      && (Unreachable(w, s) ==> u.rows == w.rows[RowKey(|w.rollouts| - 1, s) := Failed])
  {
    hide Do, Safe, PassNext;
    NewIds(w);
    TurnSteps(w);
    if Asks(w, |w.rollouts| - 1, s) && Takeable(w, s) {
      NextTakes(w, s, rest);
    } else {
      NextPasses(w, s, rest);
    }
  }

  lemma NextPasses(w: World, s: ServerId, rest: seq<ServerId>)
    requires |w.rollouts| > 0 && w.pc == InPass(|w.rollouts| - 1, [s] + rest)
    requires !(Asks(w, |w.rollouts| - 1, s) && Takeable(w, s))
    ensures PassNext(w) == w.(
      rows := if Unreachable(w, s) then w.rows[RowKey(|w.rollouts| - 1, s) := Failed] else w.rows,
      pc := InPass(|w.rollouts| - 1, rest))
  {
    hide GoOn, FailIfStillActive;
    var r := |w.rollouts| - 1;
    assert ([s] + rest)[1..] == rest;
    GoesOn(w, r, s, Rest(rest));
    Fails(w, r, s);
    GoesOn(FailIfStillActive(w, r, s), r, s, Rest(rest));
  }

  /** So a box whose write failed is tried again by the next sweep, once it can be taken. */
  lemma FailedIsTriedAgain(w: World, s: ServerId, rest: seq<ServerId>, late: bool)
    requires Safe(w) && w.pc.Free? && w.queue != [] && w.queue[0].Sweep? && |w.rollouts| > 0
    requires RowKey(|w.rollouts| - 1, s) in w.rows && w.rows[RowKey(|w.rollouts| - 1, s)] == Failed && Takeable(w, s)
    ensures
      var u := Run(w, [Start([s] + rest, late), Next]);
      && u.pc == Counting(|w.rollouts| - 1, s, w.nextId, Rest(rest)) && w.nextId in u.open
      && s in u.servers && u.servers[s].status == Reserved
  {
    hide Do, Safe, StartTask, PassNext;
    StartSteps(w, [s] + rest, late);
    SweepOpensRows(w, [s] + rest, late);
    var v := Do(w, Start([s] + rest, late));
    NextTakes(v, s, rest);
    TurnSteps(v);
    RunPair(w, Start([s] + rest, late), Next);
  }

  // ---------- the other marks ----------

  /** An apply opens a pending row for every enabled box and leaves every other row and file. */
  lemma ApplyOpensRows(w: World, content: Content)
    requires Safe(w)
    ensures
      var r, u := |w.rollouts|, Do(w, DoApply(content));
      && u == w.(rollouts := w.rollouts + [content], rows := u.rows)
      && (forall s | s in w.servers && w.servers[s].enabled ::
            RowKey(r, s) in u.rows && u.rows[RowKey(r, s)] == Pending)
      && (forall k | k in w.rows :: k in u.rows && u.rows[k] == w.rows[k])
      && (forall k | k in u.rows && k !in w.rows :: k.rollout == r)
  {
    OtherSteps(w, content, 0, false);
    assert RowsBounded(w.rows, |w.rollouts|);
    hide Do, Safe;
    var r, u := |w.rollouts|, Applied(w, content);
    forall s | s in w.servers && w.servers[s].enabled
      ensures RowKey(r, s) in u.rows && u.rows[RowKey(r, s)] == Pending
    {
      assert RowKey(r, s) in PendingOf(w.servers, r) && RowKey(r, s) !in w.rows;
    }
  }

  /**
   The boot check of a box it can read: the row, if there is one, says written exactly when the file is
   the rollout's.
   */
  lemma CheckMarks(w: World, read: bool, todo: seq<ServerId>)
    requires Safe(w) && Enabled_(w, Check(read, todo)) && w.pc.todo != []
    ensures
      var r, s, u := w.pc.rollout, w.pc.todo[0], Do(w, Check(read, todo));
      var k := RowKey(r, s);
      && u == w.(rows := u.rows, pc := Verifying(r, w.pc.todo[1..]))
      && (!read || s !in w.servers || !w.servers[s].reachable || k !in w.rows ==> u.rows == w.rows)
      && (read && s in w.servers && w.servers[s].reachable && k in w.rows ==>
            var same := s in w.files && w.files[s] == w.rollouts[r];
            u.rows == w.rows[k :=
              if same then (if w.rows[k] == Confirmed then Confirmed else Written)
              else if w.rows[k] == Failed then Failed
              else Pending])
  {
    hide Safe;
    var r, s, u := w.pc.rollout, w.pc.todo[0], Do(w, Check(read, todo));
    var k := RowKey(r, s);
    if k in w.rows { assert w.rows[k := w.rows[k]] == w.rows; }
  }

  /** A sighting that carries the rollout's values confirms a written row, and nothing else is changed by any. */
  lemma SightingConfirms(w: World, s: ServerId, carries: bool)
    ensures
      var k, u := RowKey(|w.rollouts| - 1, s), Do(w, See(s, carries));
      u == w.(rows :=
        if carries && |w.rollouts| > 0 && k in w.rows && w.rows[k] == Written then w.rows[k := Confirmed] else w.rows)
  {
    OtherSteps(w, "", s, carries);
    hide Do;
  }

  /**
   The end of the writer's own hold on a reserved box with no match makes it idle; with a match, or under
   another's hold, it does not.
   */
  lemma OwnHoldEndsIdle(w: World, s: ServerId, h: HoldId)
    requires s in w.servers && w.servers[s].status == Reserved
    ensures
      var u := Unhold(w, s, h);
      && h !in u.open && (forall x | x in w.open && x != h :: x in u.open)
      && s in u.servers
      && (u.servers[s].status == Idle <==> s in w.holds && w.holds[s] == Balance && !w.servers[s].inMatch)
      && (forall x | x in w.servers && x != s :: x in u.servers && u.servers[x] == w.servers[x])
  {
  }

  ghost predicate AsksOrWill(w: World, s: ServerId) {
    var k := RowKey(|w.rollouts| - 1, s);
    |w.rollouts| > 0 && (k !in w.rows || w.rows[k] in {Pending, Failed})
  }

  ghost predicate Free_(w: World, s: ServerId) {
    s in w.servers && w.servers[s].enabled && s !in w.inFlight
  }

  /**
   A release's turn writes a box that is still restarting without a hold of its own, an idle one under a
   hold, and no other; a call that came too late only an idle one.
   */
  lemma ReleaseTakesExactly(w: World, s: ServerId, todo: seq<ServerId>, late: bool)
    requires Safe(w) && w.pc.Free? && w.queue != [] && w.queue[0].ForRelease? && w.queue[0].server == s
    requires |w.rollouts| > 0
    ensures
      var r, u := |w.rollouts| - 1, Do(w, Start(todo, late));
      if Free_(w, s) && AsksOrWill(w, s) && w.servers[s].status == Offline && !late then
        u.pc == Preparing(r, s, None, AwaitLate) && u.open == w.open && u.servers == w.servers
      else if AsksOrWill(w, s) && Takeable(w, s) then
        && u.pc == Counting(r, s, w.nextId, Done) && w.nextId in u.open
        && s in u.servers && u.servers[s].status == Reserved
      else u.pc.Free? && u.open == w.open && u.servers == w.servers
  {
    hide Do, Safe, StartTask, BeginRelease;
    StartSteps(w, todo, late);
    ReleaseStarts(w, s, todo, late);
    var p := Popped(w);
    if !(Free_(w, s) && AsksOrWill(w, s)) {
      NothingReleased(p, s, late);
    } else if w.servers[s].status == Offline {
      OfflineReleased(p, s, late);
    } else if w.servers[s].status == Idle {
      IdleReleased(p, s, late);
    } else {
      BusyReleased(p, s, late);
    }
  }

  lemma ReleaseStarts(w: World, s: ServerId, todo: seq<ServerId>, late: bool)
    requires w.queue != [] && w.queue[0].ForRelease? && w.queue[0].server == s
    ensures StartTask(w, todo, late) == BeginRelease(Popped(w), s, late)
  {
    hide BeginRelease;
  }

  lemma NothingReleased(w: World, s: ServerId, late: bool)
    requires !(Free_(w, s) && AsksOrWill(w, s))
    ensures BeginRelease(w, s, late) == w.(pc := Free, rows := BeginRelease(w, s, late).rows)
  {
    hide EnsureRows, NeedsWrite, WriteHeld;
    if |w.rollouts| > 0 && Free_(w, s) {
      EnsureTouches(w, |w.rollouts| - 1);
      AsksOnceEnsured(w, |w.rollouts| - 1, s);
    }
  }

  lemma OfflineReleased(w: World, s: ServerId, late: bool)
    requires Free_(w, s) && AsksOrWill(w, s) && w.servers[s].status == Offline
    ensures
      var u := BeginRelease(w, s, late);
      u == w.(rows := u.rows, pc := if late then Free else Preparing(|w.rollouts| - 1, s, None, AwaitLate))
  {
    hide EnsureRows, NeedsWrite, WriteHeld;
    EnsureTouches(w, |w.rollouts| - 1);
    AsksOnceEnsured(w, |w.rollouts| - 1, s);
  }

  lemma BusyReleased(w: World, s: ServerId, late: bool)
    requires Free_(w, s) && AsksOrWill(w, s) && w.servers[s].status != Offline && w.servers[s].status != Idle
    ensures BeginRelease(w, s, late) == w.(pc := Free, rows := BeginRelease(w, s, late).rows)
  {
    hide EnsureRows, NeedsWrite, WriteHeld;
    EnsureTouches(w, |w.rollouts| - 1);
    AsksOnceEnsured(w, |w.rollouts| - 1, s);
  }

  lemma IdleReleased(w: World, s: ServerId, late: bool)
    requires Free_(w, s) && AsksOrWill(w, s) && w.servers[s].status == Idle
    ensures
      var u := BeginRelease(w, s, late);
      if Takeable(w, s) then
        && u.pc == Counting(|w.rollouts| - 1, s, w.nextId, Done) && w.nextId in u.open
        && s in u.servers && u.servers[s].status == Reserved
      else u.pc.Free? && u.open == w.open && u.servers == w.servers
  {
    hide EnsureRows, NeedsWrite, WriteHeld;
    var r := |w.rollouts| - 1;
    EnsureTouches(w, r);
    AsksOnceEnsured(w, r, s);
    HeldForRelease(EnsureRows(w, r), r, s);
  }

  lemma HeldForRelease(w: World, r: int, s: ServerId)
    requires s in w.servers && w.servers[s].enabled && w.servers[s].status == Idle
    ensures
      var u := WriteHeld(w, r, s, Done);
      if w.servers[s].reachable && !w.servers[s].leased then
        && u.pc == Counting(r, s, w.nextId, Done) && w.nextId in u.open
        && s in u.servers && u.servers[s].status == Reserved
      else u.pc.Free? && u.open == w.open && u.servers == w.servers
  {
    hide FailIfStillActive;
    Fails(w, r, s);
  }

  lemma AsksOnceEnsured(w: World, r: int, s: ServerId)
    requires s in w.servers && w.servers[s].enabled
    ensures NeedsWrite(EnsureRows(w, r).rows, r, s) <==>
      RowKey(r, s) !in w.rows || w.rows[RowKey(r, s)] in {Pending, Failed}
  {
    assert RowKey(r, s) in PendingOf(w.servers, r);
  }
}
