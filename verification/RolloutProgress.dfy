/**
 Every sync is answered: each step of the writer's turn brings the sweep that is queued nearer to its
 start, nothing else moves it, and so no run in which the turn goes on can put it off for ever.
 */
module RolloutProgress {
  import opened Wrappers
  import opened Sets
  import opened RolloutWriter
  import opened RolloutWriterLaws

  /** A step of the turn at the head of the chain: it starts, goes on, or gives up a wait. */
  predicate IsTurn(step: Step) {
    || step.Start? || step.Next? || step.Count? || step.NoStart? || step.Begin? || step.Resume?
    || step.Timeout? || step.LateOver? || step.Check?
  }

  // ---------- how far a queued sweep is from its start ----------

  /** How many tasks are ahead of the sweep. */
  function Ahead(queue: seq<Task>, id: TaskId): nat {
    if queue == [] || queue[0] == Sweep(id) then 0 else 1 + Ahead(queue[1..], id)
  }

  /** A boot verify ends in a pass over boxes listed only then, so it is further than any pass. */
  function Phase(pc: Pc): nat {
    if pc.Verifying? then 1 else 0
  }

  function AfterRank(after: After): nat {
    match after
    case Rest(todo) => 1 + 5 * |todo|
    case Done => 0
    case AwaitLate => 1
  }

  /** How many steps are left of the turn, at most. */
  function Rank(pc: Pc): nat {
    match pc
    case Free => 0
    case WaitingLate(_) => 1
    case InPass(_, todo) => 1 + 5 * |todo|
    case Counting(_, _, _, after) => 3 + AfterRank(after)
    case Preparing(_, _, _, after) => 2 + AfterRank(after)
    case Waiting(_, _, _, _, after) => 1 + AfterRank(after)
    case Verifying(_, todo) => |todo|
  }

  /** The turn comes nearer to its end, and leaves the chain alone. */
  ghost predicate Nearer(w: World, u: World) {
    && u.queue == w.queue
    && (Phase(u.pc) < Phase(w.pc) || (Phase(u.pc) == Phase(w.pc) && Rank(u.pc) < Rank(w.pc)))
  }

  lemma GoOnIsNearer(w: World, r: int, s: ServerId, after: After)
    ensures Rank(GoOn(w, r, s, after).pc) <= AfterRank(after) && Phase(GoOn(w, r, s, after).pc) == 0
    ensures GoOn(w, r, s, after).queue == w.queue && GoOn(w, r, s, after).ops == w.ops
  {
  }

  lemma FailThenGoOn(w: World, r: int, s: ServerId, after: After)
    ensures
      var u := GoOn(FailIfStillActive(w, r, s), r, s, after);
      Rank(u.pc) <= AfterRank(after) && Phase(u.pc) == 0 && u.queue == w.queue && u.ops == w.ops
  {
    hide GoOn, FailIfStillActive, Rank, AfterRank;
    FailTouches(w, r, s);
    GoOnIsNearer(FailIfStillActive(w, r, s), r, s, after);
  }

  lemma HeldIsNearer(w: World, r: int, s: ServerId, after: After)
    requires s in w.servers
    ensures
      var u := WriteHeld(w, r, s, after);
      Rank(u.pc) <= 3 + AfterRank(after) && Phase(u.pc) == 0 && u.queue == w.queue && u.ops == w.ops
  {
    hide FailIfStillActive, GoOn;
    FailThenGoOn(w, r, s, after);
    GoOnIsNearer(w, r, s, after);
  }

  lemma NextIsNearer(w: World)
    requires w.pc.InPass?
    ensures Nearer(w, PassNext(w)) && PassNext(w).ops == w.ops
  {
    hide WriteHeld, NeedsWrite;
    if w.pc.todo != [] && w.pc.todo[0] in w.servers {
      HeldIsNearer(w, w.pc.rollout, w.pc.todo[0], Rest(w.pc.todo[1..]));
    }
  }

  lemma CountIsNearer(w: World, empty: bool)
    requires w.pc.Counting?
    ensures Nearer(w, Counted(w, empty)) && Counted(w, empty).ops == w.ops
  {
    hide GoOn, Unhold;
    var p := w.pc;
    UnholdTouches(w, p.server, p.hold);
    GoOnIsNearer(Unhold(w, p.server, p.hold), p.rollout, p.server, p.after);
  }

  lemma NoStartIsNearer(w: World)
    requires w.pc.Preparing?
    ensures Nearer(w, PrepareFailed(w)) && PrepareFailed(w).ops == w.ops
  {
    hide FailIfStillActive, GoOn, Release_;
    var p := w.pc;
    ReleaseTouches(w, p.server, p.held);
    FailThenGoOn(Release_(w, p.server, p.held), p.rollout, p.server, p.after);
  }

  lemma WaitGoesOn(w: World)
    requires w.pc.Waiting?
    ensures Nearer(w, TimedOut(w)) && TimedOut(w).ops == w.ops
    ensures Enabled_(w, Resume) ==> Nearer(w, Resumed(w)) && Resumed(w).ops == w.ops
  {
    hide FailIfStillActive, GoOn, MarkWritten;
    var p := w.pc;
    FailThenGoOn(w, p.rollout, p.server, p.after);
    GoOnIsNearer(w, p.rollout, p.server, p.after);
    MarksTouch(w, p.rollout, p.server);
    GoOnIsNearer(MarkWritten(w, p.rollout, p.server), p.rollout, p.server, p.after);
  }

  lemma CheckIsNearer(w: World, read: bool, todo: seq<ServerId>)
    requires Enabled_(w, Check(read, todo))
    ensures Nearer(w, Verified(w, read, todo)) && Verified(w, read, todo).ops == w.ops
  {
    CheckTouches(w, read, todo);
    hide EnsureRows, MarkWritten, MarkPending, FileOf, NeedsWrite, SaysWritten;
    if w.pc.todo != [] {
      VerifiedOneTouches(w.(pc := Verifying(w.pc.rollout, w.pc.todo[1..])), read, w.pc.rollout, w.pc.todo[0]);
    }
  }

  lemma SimpleStepsAreNearer(w: World)
    ensures w.pc.Preparing? ==> Nearer(w, Started(w))
    ensures w.pc.WaitingLate? ==> Nearer(w, w.(pc := Free))
  {
  }

  /** Each step of a turn that has started brings its end nearer; all but the start of a call leave the calls alone. */
  lemma TurnIsNearer(w: World, step: Step)
    requires Enabled_(w, step) && IsTurn(step) && !step.Start?
    ensures Nearer(w, Do(w, step)) && (!step.Begin? ==> Do(w, step).ops == w.ops)
  {
    hide PassNext, Counted, PrepareFailed, Started, TimedOut, Resumed, Verified, Nearer;
    SimpleStepsAreNearer(w);
    match step
    case Next => NextIsNearer(w);
    case Count(empty) => CountIsNearer(w, empty);
    case NoStart => NoStartIsNearer(w);
    case Resume => WaitGoesOn(w);
    case Timeout => WaitGoesOn(w);
    case Check(read, todo) => CheckIsNearer(w, read, todo);
    case _ =>
  }

  /** A task that starts is no longer ahead of the sweep. */
  lemma StartIsNearer(w: World, todo: seq<ServerId>, late: bool, id: TaskId)
    requires w.queue != [] && Sweep(id) in w.queue && w.queue[0] != Sweep(id)
    ensures
      var u := StartTask(w, todo, late);
      u.ops == w.ops && u.queue == w.queue[1..] && Sweep(id) in u.queue && Ahead(u.queue, id) == Ahead(w.queue, id) - 1
  {
    hide StartTask, Quiet;
    StartKeepsRest(w, todo, late);
    StartIsQuiet(w, todo, late);
    StillTheseCalls(w, StartTask(w, todo, late));
    assert w.queue == [w.queue[0]] + w.queue[1..];
  }

  lemma StillTheseCalls(w: World, u: World)
    requires Quiet(w, u)
    ensures u.ops == w.ops
  {
  }

  // ---------- what does not move it ----------

  lemma {:induction false} AheadOfMore(queue: seq<Task>, id: TaskId, t: Task)
    requires Sweep(id) in queue
    ensures Ahead(queue + [t], id) == Ahead(queue, id) && Sweep(id) in queue + [t]
    decreases |queue|
  {
    assert (queue + [t])[0] == queue[0];
    if queue[0] != Sweep(id) {
      assert queue == [queue[0]] + queue[1..] && (queue + [t])[1..] == queue[1..] + [t];
      AheadOfMore(queue[1..], id, t);
    }
  }

  /** The sweep is as far from its start as it was, and no call has started. */
  ghost predicate SamePlace(w: World, u: World, id: TaskId) {
    && Sweep(id) in u.queue && Ahead(u.queue, id) == Ahead(w.queue, id)
    && Phase(u.pc) == Phase(w.pc) && Rank(u.pc) == Rank(w.pc)
    && forall o | o in u.ops :: o in w.ops
  }

  lemma QueueingKeepsPlace(w: World, s: ServerId, id: TaskId)
    requires Sweep(id) in w.queue
    ensures SamePlace(w, Sync(w), id) && SamePlace(w, VerifyAll(w), id) && SamePlace(w, WriteForRelease(w, s), id)
  {
    AheadOfMore(w.queue, id, Sweep(w.nextId));
    AheadOfMore(w.queue, id, VerifyThenSweep(w.nextId));
    AheadOfMore(w.queue, id, ForRelease(w.nextId, s));
  }

  lemma SettleKeepsPlace(w: World, op: OpId, ok: bool, id: TaskId)
    requires op in w.ops && Sweep(id) in w.queue
    ensures SamePlace(w, Settled(w, op, ok), id)
  {
    hide Release_;
    SettleTouches(w, op, ok);
    var o := w.ops[op];
    ReleaseTouches(w.(ops := w.ops - {op}, inFlight := w.inFlight - {o.server}), o.server, o.hold);
  }

  /** Settles, applies, syncs, releases, sightings and everything outside leave it where it is. */
  lemma OthersKeepPlace(w: World, step: Step, id: TaskId)
    requires Enabled_(w, step) && !IsTurn(step) && Sweep(id) in w.queue
    ensures SamePlace(w, Do(w, step), id)
  {
    hide Sync, VerifyAll, WriteForRelease, Landed, Settled, Applied, Sighting;
    match step
    case DoSync => QueueingKeepsPlace(w, 0, id);
    case DoVerifyAll => QueueingKeepsPlace(w, 0, id);
    case DoRelease(s) => QueueingKeepsPlace(w, s, id);
    case Settle(op, ok) => SettleKeepsPlace(w, op, ok, id);
    case Land(op) => LandTouches(w, op);
    case DoApply(content) => ApplyTouches(w, content);
    case See(s, carries) => SeeTouches(w, s, carries);
    case _ =>
  }

  /** Lexicographically: tasks ahead, a boot verify under way, steps left of the turn. */
  ghost predicate Closer(w: World, u: World, id: TaskId) {
    || Ahead(u.queue, id) < Ahead(w.queue, id)
    || (Ahead(u.queue, id) == Ahead(w.queue, id)
        && (Phase(u.pc) < Phase(w.pc) || (Phase(u.pc) == Phase(w.pc) && Rank(u.pc) < Rank(w.pc))))
  }

  /** A step of the turn starts the sweep or brings its start closer; any other step leaves it as far as it was. */
  lemma EveryTurnIsCloser(w: World, step: Step, id: TaskId)
    requires Sweep(id) in w.queue && Enabled_(w, step) && !StartsSweep(w, step, id)
    ensures IsTurn(step) ==> Closer(w, Do(w, step), id) && Sweep(id) in Do(w, step).queue
    ensures !IsTurn(step) ==> SamePlace(w, Do(w, step), id)
  {
    hide SamePlace, StartTask, PassNext, Counted, PrepareFailed, Started, TimedOut, Resumed, Verified, Sync, Settled;
    if !IsTurn(step) {
      OthersKeepPlace(w, step, id);
    } else if step.Start? {
      StartIsNearer(w, step.todo, step.late, id);
    } else {
      TurnIsNearer(w, step);
    }
  }

  // ---------- the turn can always go on ----------

  /** The step that ends the running turn soonest. */
  function Onward(w: World): Step {
    match w.pc
    case InPass(_, _) => Next
    case Counting(_, _, _, _) => Count(false)
    case Preparing(_, _, _, _) => NoStart
    case Waiting(_, _, _, None, _) => Timeout
    case Waiting(_, _, _, Some(_), _) => Resume
    case WaitingLate(_) => LateOver
    case Verifying(_, _) => Check(false, [])
    case Free => Start([], true)
  }

  /** Only a boot verify waits, for the calls in flight to settle. */
  lemma OnwardIsEnabled(w: World)
    requires Safe(w) && w.queue != [] && (w.pc.Free? ==> w.ops == map[])
    ensures Enabled_(w, Onward(w)) && IsTurn(Onward(w)) && !Onward(w).Begin?
  {
  }

  // ---------- fair runs ----------

  ghost predicate StepAt(g: nat -> World, f: nat -> Step, i: nat) {
    Enabled_(g(i), f(i)) && g(i + 1) == Do(g(i), f(i))
  }

  ghost predicate TurnEnabled(w: World) {
    exists step :: IsTurn(step) && Enabled_(w, step)
  }

  /** A step of the turn at `i` or later. */
  ghost predicate TurnComes(f: nat -> Step, i: nat) {
    exists j :: i <= j && IsTurn(f(j))
  }

  ghost predicate Stalls(g: nat -> World, i: nat) {
    exists j :: i <= j && !TurnEnabled(g(j))
  }

  ghost predicate Settles(g: nat -> World, i: nat, op: OpId) {
    exists j :: i <= j && op !in g(j).ops
  }

  /**
   A run without end in which a turn that can go on all the while does, as every await of it is
   bounded, and every transport call settles.
   */
  ghost predicate Fair(g: nat -> World, f: nat -> Step) {
    && (forall i: nat :: StepAt(g, f, i))
    && (forall i: nat :: TurnComes(f, i) || Stalls(g, i))
    && (forall i: nat, op | op in g(i).ops :: Settles(g, i, op))
  }

  lemma {:induction false} StaysSafe(g: nat -> World, f: nat -> Step, i: nat)
    requires Safe(g(0)) && forall k: nat :: StepAt(g, f, k)
    ensures Safe(g(i))
  {
    hide Safe;
    if i > 0 {
      StaysSafe(g, f, i - 1);
      assert StepAt(g, f, i - 1);
      StepKeepsSafe(g(i - 1), f(i - 1));
    }
  }

  /** Until a step of the turn the sweep keeps its place and no call starts. */
  lemma {:induction false} PlaceUntil(g: nat -> World, f: nat -> Step, i: nat, j: nat, id: TaskId)
    requires i <= j && Sweep(id) in g(i).queue && forall k: nat :: StepAt(g, f, k)
    requires forall k | i <= k < j :: !IsTurn(f(k))
    ensures SamePlace(g(i), g(j), id)
    decreases j
  {
    hide Do, Ahead, Rank, Phase;
    if i < j {
      PlaceUntil(g, f, i, j - 1, id);
      assert StepAt(g, f, j - 1);
      OthersKeepPlace(g(j - 1), f(j - 1), id);
    }
  }

  /** The first of the turn's steps from `i` on. */
  lemma {:induction false} FirstTurn(f: nat -> Step, i: nat, j: nat) returns (k: nat)
    requires i <= j && IsTurn(f(j))
    ensures i <= k <= j && IsTurn(f(k)) && forall l | i <= l < k :: !IsTurn(f(l))
    decreases j - i
  {
    if IsTurn(f(i)) { return i; }
    k := FirstTurn(f, i + 1, j);
  }

  lemma FewerCalls(a: map<OpId, WriteOp>, b: map<OpId, WriteOp>, op: OpId)
    requires op in a && op !in b && forall o | o in b :: o in a
    ensures |b| < |a|
  {
    forall o | o in b.Keys ensures o in a.Keys - {op} {
      assert o in b;
    }
    Smaller(b.Keys, a.Keys - {op});
  }

  lemma {:induction false} Smaller(a: set<OpId>, b: set<OpId>)
    requires a <= b
    ensures |a| <= |b|
    decreases a
  {
    if a != {} {
      var x := Any(a);
      Smaller(a - {x}, b - {x});
    }
  }

  /** With the sweep queued the turn takes a step again: what a boot verify waits for settles. */
  lemma {:induction false} TurnDoesCome(g: nat -> World, f: nat -> Step, i: nat, id: TaskId)
    requires Fair(g, f) && Safe(g(0)) && Sweep(id) in g(i).queue
    ensures TurnComes(f, i)
    decreases |g(i).ops|
  {
    hide Safe, Enabled_, IsTurn;
    if !TurnComes(f, i) {
      assert Stalls(g, i);
      var j :| i <= j && !TurnEnabled(g(j));
      PlaceUntil(g, f, i, j, id);
      StaysSafe(g, f, j);
      StalledWaits(g(j));
      var op := Any(g(j).ops.Keys);
      assert Settles(g, j, op);
      var l :| j <= l && op !in g(l).ops;
      PlaceUntil(g, f, j, l, id);
      FewerCalls(g(i).ops, g(l).ops, op);
      TurnDoesCome(g, f, l, id);
    }
  }

  lemma StalledWaits(w: World)
    requires Safe(w) && w.queue != [] && !TurnEnabled(w)
    ensures w.ops.Keys != {}
  {
    if w.ops == map[] { OnwardIsEnabled(w); }
  }

  /** In a fair run a queued sweep starts. */
  lemma {:induction false} QueuedSweepStarts(g: nat -> World, f: nat -> Step, i: nat, id: TaskId) returns (k: nat)
    requires Fair(g, f) && Safe(g(0)) && Sweep(id) in g(i).queue
    ensures i <= k && StartsSweep(g(k), f(k), id)
    decreases Ahead(g(i).queue, id), Phase(g(i).pc), Rank(g(i).pc)
  {
    hide Safe, Enabled_, IsTurn, Ahead, Rank, Phase, Do, StartsSweep, TurnComes, Stalls, Settles;
    TurnDoesCome(g, f, i, id);
    var j := SomeTurn(f, i);
    var t := FirstTurn(f, i, j);
    PlaceUntil(g, f, i, t, id);
    if StartsSweep(g(t), f(t), id) { return t; }
    assert StepAt(g, f, t);
    EveryTurnIsCloser(g(t), f(t), id);
    k := QueuedSweepStarts(g, f, t + 1, id);
  }

  lemma SomeTurn(f: nat -> Step, i: nat) returns (j: nat)
    requires TurnComes(f, i)
    ensures i <= j && IsTurn(f(j))
  {
    j :| i <= j && IsTurn(f(j));
  }

  /**
   Every sync() is answered: in a fair run each call is handed a sweep that is queued and has not
   started, and that sweep starts after the call.
   */
  lemma EverySyncIsAnswered(g: nat -> World, f: nat -> Step, i: nat)
    requires Fair(g, f) && Safe(g(0)) && f(i) == DoSync
    ensures g(i + 1).queuedSync.Some?
    ensures exists k: nat :: i < k && StartsSweep(g(k), f(k), g(i + 1).queuedSync.value)
  {
    StaysSafe(g, f, i);
    assert StepAt(g, f, i);
    SyncKeepsSafe(g(i));
    hide Safe, Sync, Fair, StartsSweep;
    OneSweepQueued(g(i + 1));
    SyncQueues(g(i));
    var k := QueuedSweepStarts(g, f, i + 1, g(i + 1).queuedSync.value);
  }

  lemma SyncQueues(w: World)
    ensures Sync(w).queuedSync.Some?
  {
  }

  // ---------- runs of the writer's own steps ----------

  /** A step of the turn, or a call that settles. */
  predicate IsOwn(step: Step) {
    IsTurn(step) || step.Settle?
  }

  ghost predicate Starts(w: World, steps: seq<Step>, id: TaskId) {
    && steps != [] && (forall step | step in steps :: IsOwn(step))
    && StartsSweep(Run(w, steps[..|steps| - 1]), steps[|steps| - 1], id)
  }

  lemma {:induction false} RunFirst(w: World, step: Step, rest: seq<Step>)
    requires Enabled_(w, step)
    ensures Run(w, [step] + rest) == Run(Do(w, step), rest)
    decreases |rest|
  {
    hide Do, Enabled_;
    var all := [step] + rest;
    if rest == [] {
      assert all[..|all| - 1] == [];
    } else {
      assert all[..|all| - 1] == [step] + rest[..|rest| - 1];
      RunFirst(w, step, rest[..|rest| - 1]);
    }
  }

  lemma StartsLater(w: World, step: Step, rest: seq<Step>, id: TaskId)
    requires Enabled_(w, step) && IsOwn(step) && Starts(Do(w, step), rest, id)
    ensures Starts(w, [step] + rest, id)
  {
    hide Do, Enabled_, StartsSweep, IsOwn;
    var all := [step] + rest;
    assert all[..|all| - 1] == [step] + rest[..|rest| - 1];
    RunFirst(w, step, rest[..|rest| - 1]);
  }

  lemma SettlesOne(w: World, op: OpId)
    requires op in w.ops
    ensures Enabled_(w, Settle(op, true))
    ensures Do(w, Settle(op, true)).queue == w.queue && |Do(w, Settle(op, true)).ops| < |w.ops|
  {
    hide Settled;
    SettleTouches(w, op, true);
    assert w.ops.Keys == (w.ops - {op}).Keys + {op};
  }

  ghost predicate CanStart(w: World, id: TaskId) {
    exists steps :: Starts(w, steps, id)
  }

  /** And a run can always go on to it: from any state calls that settle and turns that go on lead to its start. */
  lemma {:induction false} SweepCanStart(w: World, id: TaskId)
    requires Safe(w) && Sweep(id) in w.queue
    ensures CanStart(w, id)
    decreases |w.ops|, Ahead(w.queue, id), Phase(w.pc), Rank(w.pc)
  {
    hide Safe, Do, Rank, Phase, Ahead, Starts, Run, StartsSweep, Enabled_;
    var step := Onward(w);
    if w.ops.Keys != {} {
      var op := Any(w.ops.Keys);
      step := Settle(op, true);
      SettlesOne(w, op);
    } else {
      NoCalls(w);
      OnwardIsEnabled(w);
      if StartsSweep(w, step, id) {
        StartsAtOnce(w, step, id);
        return;
      }
      EveryTurnIsCloser(w, step, id);
      OnwardKeepsCalls(w, id);
    }
    StepKeepsSafe(w, step);
    SweepCanStart(Do(w, step), id);
    var rest :| Starts(Do(w, step), rest, id);
    StartsLater(w, step, rest, id);
  }

  lemma NoCalls(w: World)
    requires w.ops.Keys == {}
    ensures w.ops == map[]
  {
  }

  lemma OnwardKeepsCalls(w: World, id: TaskId)
    requires Enabled_(w, Onward(w)) && Sweep(id) in w.queue && !StartsSweep(w, Onward(w), id)
    ensures Do(w, Onward(w)).ops == w.ops
  {
    hide StartTask, Nearer;
    if w.pc.Free? {
      StartIsNearer(w, [], true, id);
    } else {
      TurnIsNearer(w, Onward(w));
    }
  }

  lemma StartsAtOnce(w: World, step: Step, id: TaskId)
    requires StartsSweep(w, step, id)
    ensures Starts(w, [step], id)
  {
    assert [step][..0] == [];
  }
}
