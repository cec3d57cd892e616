/** What every interleaving of abandon calls, answers and outside changes keeps. */
module AbandonLaws {
  import opened Wrappers
  import opened Abandon

  // ---------- one step of the site ----------

  /** Everything else that happens to a match. */
  datatype Outside =
    | Created(t: Token, m: Match)
    | Started(t: Token)
    | Rostered(t: Token, roster: map<Id, Side>)
    | AbortedElse(t: Token)
    | BanLifted(i: nat, lift: Lift)
    | BannedElse(ban: Ban)

  /** Another writer's step; bans it files are not about a match. */
  function Elsewhere(s: Site, o: Outside): Site {
    match o
    case Created(t, m) =>
      if t in s.matches || !Open(m) || m.cause != NoCause then s else s.(matches := s.matches[t := m])
    case Started(t) =>
      if t in s.matches && s.matches[t].state == Configuring then
        s.(matches := s.matches[t := s.matches[t].(state := Live)])
      else s
    case Rostered(t, roster) =>
      if t in s.matches then s.(matches := s.matches[t := s.matches[t].(roster := roster)]) else s
    case AbortedElse(t) =>
      if t in s.matches && Open(s.matches[t]) then
        s.(matches := s.matches[t := s.matches[t].(state := Aborted, cause := OtherCause)])
      else s
    case BanLifted(i, lift) =>
      if i < |s.bans| then s.(bans := s.bans[i := s.bans[i].(lifted := Some(lift))]) else s
    case BannedElse(ban) =>
      if ban.about.None? then s.(bans := s.bans + [ban]) else s
  }

  /** One step: a call up to its first await, an answer to one, a collected result, or another writer. */
  datatype Event =
    | Line(t: Token, id: Id, before: Option<Side>)
    | ConfirmLost(t: Token)
    | Answered(t: Token, c: Confirm, resolve: Id -> Id, canEnd: bool, now: int)
    | EndSettled(t: Token, answer: EndAnswer)
    | Result(t: Token, abandoners: seq<Id>, decided: Option<Side>, now: int)
    | Other(o: Outside)

  /** What the two SELECTs for a decided row can have found. */
  ghost predicate CanHappen(s: Site, e: Event) {
    match e
    case Line(t, _, before) => DecidedFor(s.rows, t, before)
    case Result(t, _, decided, _) => DecidedFor(s.rows, t, decided)
    case _ => true
  }

  function After(s: Site, e: Event): Site {
    match e
    case Line(t, id, before) => Begun(s, t, id, AnyRow(s.rows, t), before)
    case ConfirmLost(t) => if t in s.waits && s.waits[t].Confirming? then Done(s, t) else s
    case Answered(t, c, resolve, canEnd, now) => Confirmed(s, t, c, resolve, canEnd, now)
    case EndSettled(t, answer) => Ended(s, t, answer)
    case Result(t, abandoners, decided, now) => Collected(s, t, abandoners, decided, now)
    case Other(o) => Elsewhere(s, o)
  }

  // ---------- what is kept ----------

  ghost function BansAbout(bans: seq<Ban>, t: Token, id: Id): nat {
    if bans == [] then 0
    else
      var last := bans[|bans| - 1];
      BansAbout(bans[..|bans| - 1], t, id) + if last.about == Some(t) && last.player == id then 1 else 0
  }

  /** Exactly one ban for each row, and none about a match without one. */
  ghost predicate OneBanPerRow(s: Site) {
    forall t, id :: BansAbout(s.bans, t, id) == if (t, id) in s.rows then 1 else 0
  }

  /** All rows of a match have this outcome. */
  ghost predicate AllDecided(rows: map<(Token, Id), Row>, t: Token, decided: Option<Side>) {
    forall id | (t, id) in rows :: rows[(t, id)].decided == decided
  }

  ghost predicate WaitFits(s: Site, t: Token, w: Wait) {
    match w
    case Confirming(_, hadRows, before) => (hadRows <==> AnyRow(s.rows, t)) && AllDecided(s.rows, t, before)
    case Ending(_, decided) => AllDecided(s.rows, t, Some(decided))
  }

  ghost predicate MatchFits(s: Site, t: Token)
    requires t in s.matches
  {
    && (exists decided :: AllDecided(s.rows, t, decided))
    && (s.matches[t].cause == ForAbandon ==>
          s.matches[t].state == Aborted && AllDecided(s.rows, t, None) && t !in s.waits)
    && s.wrapped[t] == (if s.matches[t].cause == ForAbandon then 1 else 0)
    && (t in s.waits ==> WaitFits(s, t, s.waits[t]))
  }

  ghost predicate Kept(s: Site) {
    && s.inFlight == s.waits.Keys && s.waits.Keys <= s.matches.Keys
    && (forall k | k in s.rows :: k.0 in s.matches)
    && (forall t | t in s.matches :: MatchFits(s, t))
    && (forall t | t !in s.matches :: s.wrapped[t] == 0)
    && OneBanPerRow(s)
  }

  // ---------- recordAbandons ----------

  lemma RecordOneKeepsBans(s: Site, t: Token, id: Id, decided: Option<Side>, gg: Option<Gg>, now: int)
    requires t in s.matches && OneBanPerRow(s)
    ensures OneBanPerRow(RecordOne(s, t, id, decided, gg, now))
  {
    var r := RecordOne(s, t, id, decided, gg, now);
    if r != s { assert r.bans[..|r.bans| - 1] == s.bans; }
  }

  lemma {:induction false} RecordKeepsBans(s: Site, t: Token, ids: seq<Id>, decided: Option<Side>, gg: Option<Gg>,
                                           now: int)
    requires t in s.matches && OneBanPerRow(s)
    ensures OneBanPerRow(Record(s, t, ids, decided, gg, now))
    decreases |ids|
  {
    hide RecordOne, OneBanPerRow;
    if ids != [] {
      var before := ids[..|ids| - 1];
      RecordKeepsBans(s, t, before, decided, gg, now);
      RecordOneKeepsBans(Record(s, t, before, decided, gg, now), t, ids[|ids| - 1], decided, gg, now);
    }
  }

  /** Only rows of this match are added, for rostered players, with this outcome; none changes. */
  lemma {:induction false} RecordAdds(s: Site, t: Token, ids: seq<Id>, decided: Option<Side>, gg: Option<Gg>, now: int)
    requires t in s.matches
    ensures
      var r := Record(s, t, ids, decided, gg, now);
      && (forall k | k in s.rows :: k in r.rows && r.rows[k] == s.rows[k])
      && (forall k | k in r.rows && k !in s.rows ::
            && k.0 == t && k.1 in ids && k.1 in s.matches[t].roster && r.rows[k].decided == decided
            && r.rows[k].team == s.matches[t].roster[k.1])
      && (forall id | id in ids && id in s.matches[t].roster :: (t, id) in r.rows)
    decreases |ids|
  {
    if ids != [] {
      assert ids == ids[..|ids| - 1] + [ids[|ids| - 1]];
      RecordAdds(s, t, ids[..|ids| - 1], decided, gg, now);
    }
  }

  /** Recording what is on record already changes nothing. */
  lemma {:induction false} RecordTwiceIsOnce(s: Site, t: Token, ids: seq<Id>, decided: Option<Side>, gg: Option<Gg>,
                                             now: int)
    requires t in s.matches && forall id | id in ids && id in s.matches[t].roster :: (t, id) in s.rows
    ensures Record(s, t, ids, decided, gg, now) == s
    decreases |ids|
  {
    if ids != [] {
      assert ids == ids[..|ids| - 1] + [ids[|ids| - 1]];
      RecordTwiceIsOnce(s, t, ids[..|ids| - 1], decided, gg, now);
    }
  }

  // ---------- every step keeps it ----------

  /** Nothing of another match changes. */
  ghost predicate OnlyTouches(s: Site, r: Site, t: Token) {
    && t in s.matches && r.matches.Keys == s.matches.Keys
    && (forall u | u in s.matches && u != t :: r.matches[u] == s.matches[u])
    && (forall u | u != t :: r.wrapped[u] == s.wrapped[u] && (u in r.waits <==> u in s.waits))
    && (forall u | u in s.waits && u != t :: r.waits[u] == s.waits[u])
    && (forall k | k in s.rows && k.0 != t :: k in r.rows && r.rows[k] == s.rows[k])
    && (forall k | k in r.rows && k.0 != t :: k in s.rows)
  }

  lemma OthersFit(s: Site, r: Site, t: Token, u: Token)
    requires OnlyTouches(s, r, t) && u in s.matches && u != t && MatchFits(s, u)
    ensures MatchFits(r, u)
  {
    var decided :| AllDecided(s.rows, u, decided);
    assert AllDecided(r.rows, u, decided);
    assert AnyRow(r.rows, u) <==> AnyRow(s.rows, u);
  }

  lemma TouchKeeps(s: Site, r: Site, t: Token)
    requires Kept(s) && OnlyTouches(s, r, t)
    requires MatchFits(r, t) && OneBanPerRow(r) && r.inFlight == r.waits.Keys
    ensures Kept(r)
  {
    hide MatchFits, OneBanPerRow;
    forall u | u in r.matches ensures MatchFits(r, u) {
      if u != t { OthersFit(s, r, t, u); }
    }
    forall k | k in r.rows ensures k.0 in r.matches {
      if k.0 != t { assert k in s.rows; }
    }
  }

  lemma DecidedForIsAll(s: Site, t: Token, decided: Option<Side>)
    requires t in s.matches && MatchFits(s, t) && DecidedFor(s.rows, t, decided)
    ensures AllDecided(s.rows, t, decided)
    ensures decided.Some? ==> AnyRow(s.rows, t)
  {
    var all :| AllDecided(s.rows, t, all);
    if decided.Some? {
      var id :| (t, id) in s.rows && s.rows[(t, id)].decided == decided;
      assert (t, id).0 == t;
    }
  }

  lemma WaitKeeps(s: Site, t: Token, w: Wait)
    requires Kept(s) && t in s.matches && s.matches[t].cause != ForAbandon && WaitFits(s, t, w)
    ensures Kept(WaitingFor(s, t, w))
  {
    hide OneBanPerRow;
    var r := WaitingFor(s, t, w);
    BansOnly(s, r);
    assert MatchFits(s, t);
    var all :| AllDecided(s.rows, t, all);
    assert AllDecided(r.rows, t, all);
    assert WaitFits(r, t, w);
    TouchKeeps(s, r, t);
  }

  lemma LineKeeps(s: Site, t: Token, id: Id, before: Option<Side>)
    requires Kept(s) && DecidedFor(s.rows, t, before)
    ensures Kept(Begun(s, t, id, AnyRow(s.rows, t), before))
  {
    if Handled(s, t, id) {
      assert MatchFits(s, t);
      DecidedForIsAll(s, t, before);
      hide Kept, MatchFits, DecidedFor, AnyRow;
      if (t, id) !in s.rows {
        WaitKeeps(s, t, Confirming(id, AnyRow(s.rows, t), before));
      } else if s.rows[(t, id)].decided.Some? {
        assert before == s.rows[(t, id)].decided;
        WaitKeeps(s, t, Ending(id, s.rows[(t, id)].decided.value));
      }
    }
  }

  lemma DoneKeeps(s: Site, t: Token)
    requires Kept(s) && t in s.matches
    ensures Kept(Done(s, t))
  {
    assert MatchFits(s, t);
    var all :| AllDecided(s.rows, t, all);
    assert AllDecided(Done(s, t).rows, t, all);
    TouchKeeps(s, Done(s, t), t);
  }

  lemma RecordDecides(s: Site, t: Token, ids: seq<Id>, decided: Option<Side>, gg: Option<Gg>, now: int)
    requires t in s.matches && AllDecided(s.rows, t, decided)
    ensures AllDecided(Record(s, t, ids, decided, gg, now).rows, t, decided)
    ensures forall k | k in s.rows && k.0 != t ::
      k in Record(s, t, ids, decided, gg, now).rows && Record(s, t, ids, decided, gg, now).rows[k] == s.rows[k]
    ensures forall k | k in Record(s, t, ids, decided, gg, now).rows && k.0 != t :: k in s.rows
  {
    hide Record;
    RecordAdds(s, t, ids, decided, gg, now);
  }

  lemma ConfirmedKeeps(s: Site, t: Token, c: Confirm, resolve: Id -> Id, canEnd: bool, now: int)
    requires Kept(s)
    ensures Kept(Confirmed(s, t, c, resolve, canEnd, now))
  {
    if t in s.matches && t in s.waits && s.waits[t].Confirming? {
      var w, named := s.waits[t], Resolved(c.abandoners, resolve);
      assert MatchFits(s, t);
      if !c.abandoner && w.id !in named {
        DoneKeeps(s, t);
      } else if w.hadRows {
        if w.before.None? {
          DoneKeeps(s, t);
        } else {
          RecordedThenEnding(s, t, [w.id], w.before.value, None, now, w.id);
        }
      } else {
        var decided := if s.matches[t].pug && canEnd && c.gg.Some? then c.gg.value.decided else None;
        if !Open(s.matches[t]) {
          DoneKeeps(s, t);
        } else if decided.None? {
          AbortedAndRecorded(s, t, [w.id] + named, c.gg, now);
        } else {
          NoRowsDecide(s.rows, t, decided);
          RecordedThenEnding(s, t, [w.id] + named, decided.value, c.gg, now, w.id);
        }
      }
    }
  }

  lemma NoRowsDecide(rows: map<(Token, Id), Row>, t: Token, decided: Option<Side>)
    requires !AnyRow(rows, t)
    ensures AllDecided(rows, t, decided)
  {
    assert forall id | (t, id) in rows :: (t, id).0 == t;
  }

  lemma RecordedThenEnding(s: Site, t: Token, ids: seq<Id>, decided: Side, gg: Option<Gg>, now: int, id: Id)
    requires Kept(s) && t in s.waits && AllDecided(s.rows, t, Some(decided))
    ensures Kept(WaitingFor(Record(s, t, ids, Some(decided), gg, now), t, Ending(id, decided)))
  {
    hide Record, OneBanPerRow;
    assert MatchFits(s, t);
    RecordDecides(s, t, ids, Some(decided), gg, now);
    var r := Record(s, t, ids, Some(decided), gg, now);
    RecordKeepsBans(s, t, ids, Some(decided), gg, now);
    BansOnly(r, WaitingFor(r, t, Ending(id, decided)));
    TouchKeeps(s, WaitingFor(r, t, Ending(id, decided)), t);
  }

  lemma BansOnly(s: Site, r: Site)
    requires OneBanPerRow(s) && r.bans == s.bans && r.rows == s.rows
    ensures OneBanPerRow(r)
  {
  }

  lemma BansSameKeys(s: Site, r: Site)
    requires OneBanPerRow(s) && r.bans == s.bans && r.rows.Keys == s.rows.Keys
    ensures OneBanPerRow(r)
  {
    assert forall k :: k in r.rows <==> k in r.rows.Keys;
    assert forall k :: k in s.rows <==> k in s.rows.Keys;
  }

  lemma AbortedAndRecorded(s: Site, t: Token, ids: seq<Id>, gg: Option<Gg>, now: int)
    requires Kept(s) && t in s.waits && Open(s.matches[t]) && AllDecided(s.rows, t, None)
    ensures Kept(Done(Record(Abort(s, t), t, ids, None, gg, now), t))
  {
    hide Record, OneBanPerRow, AllDecided, AnyRow;
    assert MatchFits(s, t);
    var a := Abort(s, t);
    BansOnly(s, a);
    RecordDecides(a, t, ids, None, gg, now);
    RecordKeepsBans(a, t, ids, None, gg, now);
    var r := Record(a, t, ids, None, gg, now);
    BansOnly(r, Done(r, t));
    TouchKeeps(s, Done(r, t), t);
  }

  lemma UndecidedRows(rows: map<(Token, Id), Row>, t: Token)
    ensures Undecided(rows, t).Keys == rows.Keys && AllDecided(Undecided(rows, t), t, None)
    ensures forall k | k in rows && k.0 != t :: k in Undecided(rows, t) && Undecided(rows, t)[k] == rows[k]
    ensures forall k | k in Undecided(rows, t) :: k in rows
  {
  }

  lemma RefusedKeeps(s: Site, t: Token)
    requires Kept(s) && t in s.waits && Open(s.matches[t])
    ensures Kept(Done(Abort(s, t).(rows := Undecided(s.rows, t)), t))
  {
    hide OneBanPerRow, Undecided, AllDecided;
    var r := Done(Abort(s, t).(rows := Undecided(s.rows, t)), t);
    assert MatchFits(s, t);
    UndecidedRows(s.rows, t);
    BansSameKeys(s, r);
    TouchKeeps(s, r, t);
  }

  lemma EndedKeeps(s: Site, t: Token, answer: EndAnswer)
    requires Kept(s)
    ensures Kept(Ended(s, t, answer))
  {
    if t in s.matches && t in s.waits && s.waits[t].Ending? {
      assert MatchFits(s, t);
      if answer == Refused && Open(s.matches[t]) {
        RefusedKeeps(s, t);
      } else {
        DoneKeeps(s, t);
      }
    }
  }

  lemma StateKeeps(s: Site, t: Token, m: Match)
    requires Kept(s) && t in s.matches
    requires m.cause == ForAbandon <==> s.matches[t].cause == ForAbandon
    requires m.cause == ForAbandon ==> m.state == Aborted
    ensures Kept(s.(matches := s.matches[t := m]))
  {
    hide OneBanPerRow;
    var r := s.(matches := s.matches[t := m]);
    BansOnly(s, r);
    assert MatchFits(s, t);
    var all :| AllDecided(s.rows, t, all);
    assert AllDecided(r.rows, t, all);
    TouchKeeps(s, r, t);
  }

  lemma MoreRowsKeep(s: Site, t: Token, ids: seq<Id>, decided: Option<Side>, now: int)
    requires Kept(s) && t in s.matches && decided.Some? && AllDecided(s.rows, t, decided) && AnyRow(s.rows, t)
    ensures Kept(Record(s, t, ids, decided, None, now))
  {
    hide Record, OneBanPerRow;
    RecordDecides(s, t, ids, decided, None, now);
    RecordAdds(s, t, ids, decided, None, now);
    RecordKeepsBans(s, t, ids, decided, None, now);
    var r := Record(s, t, ids, decided, None, now);
    RowsStay(s, r, t, decided);
    TouchKeeps(s, r, t);
  }

  lemma ResultKeeps(s: Site, t: Token, abandoners: seq<Id>, decided: Option<Side>, now: int)
    requires Kept(s) && DecidedFor(s.rows, t, decided)
    ensures Kept(Collected(s, t, abandoners, decided, now))
  {
    if t in s.matches && Open(s.matches[t]) {
      assert MatchFits(s, t);
      DecidedForIsAll(s, t, decided);
      StateKeeps(s, t, s.matches[t].(state := Completed));
      var done := s.(matches := s.matches[t := s.matches[t].(state := Completed)]);
      hide Kept, MatchFits, AllDecided, Record;
      if decided.Some? { MoreRowsKeep(done, t, abandoners, decided, now); }
    }
  }

  /** A wait on a match with decided rows still fits once more are added. */
  lemma RowsStay(s: Site, r: Site, t: Token, decided: Option<Side>)
    requires t in s.matches && MatchFits(s, t) && decided.Some? && AnyRow(s.rows, t)
    requires r.matches == s.matches && r.waits == s.waits && r.wrapped == s.wrapped
    requires AllDecided(s.rows, t, decided) && AllDecided(r.rows, t, decided)
    requires forall k | k in s.rows :: k in r.rows
    ensures MatchFits(r, t)
  {
    var k :| k in s.rows && k.0 == t;
    assert k == (t, k.1) && s.rows[(t, k.1)].decided == decided;
  }

  lemma {:induction false} LiftKeepsCount(bans: seq<Ban>, i: nat, lift: Lift, t: Token, id: Id)
    requires i < |bans|
    ensures BansAbout(bans[i := bans[i].(lifted := Some(lift))], t, id) == BansAbout(bans, t, id)
    decreases |bans|
  {
    var m := |bans| - 1;
    var after := bans[i := bans[i].(lifted := Some(lift))];
    if i < m {
      assert after[..m] == bans[..m][i := bans[..m][i].(lifted := Some(lift))];
      LiftKeepsCount(bans[..m], i, lift, t, id);
    } else {
      assert after[..m] == bans[..m];
    }
  }

  lemma CreatedKeeps(s: Site, t: Token, m: Match)
    requires Kept(s) && t !in s.matches && Open(m) && m.cause == NoCause
    ensures Kept(s.(matches := s.matches[t := m]))
  {
    var r := s.(matches := s.matches[t := m]);
    hide OneBanPerRow;
    BansOnly(s, r);
    NoRowsDecide(r.rows, t, None);
    forall u | u in r.matches ensures MatchFits(r, u) {
      if u != t {
        assert MatchFits(s, u);
        var all :| AllDecided(s.rows, u, all);
        assert AllDecided(r.rows, u, all);
      }
    }
  }

  lemma BansKeep(s: Site, bans: seq<Ban>)
    requires Kept(s) && forall t, id :: BansAbout(bans, t, id) == BansAbout(s.bans, t, id)
    ensures Kept(s.(bans := bans))
  {
    var r := s.(bans := bans);
    assert OneBanPerRow(r);
    hide OneBanPerRow;
    forall u | u in r.matches ensures MatchFits(r, u) {
      assert MatchFits(s, u);
      var all :| AllDecided(s.rows, u, all);
      assert AllDecided(r.rows, u, all);
    }
  }

  lemma ElsewhereKeeps(s: Site, o: Outside)
    requires Kept(s)
    ensures Kept(Elsewhere(s, o))
  {
    match o
    case Created(t, m) =>
      if t !in s.matches && Open(m) && m.cause == NoCause { CreatedKeeps(s, t, m); }
    case Started(t) =>
      if t in s.matches && s.matches[t].state == Configuring {
        assert MatchFits(s, t);
        StateKeeps(s, t, s.matches[t].(state := Live));
      }
    case Rostered(t, roster) =>
      if t in s.matches {
        assert MatchFits(s, t);
        StateKeeps(s, t, s.matches[t].(roster := roster));
      }
    case AbortedElse(t) =>
      if t in s.matches && Open(s.matches[t]) {
        assert MatchFits(s, t);
        StateKeeps(s, t, s.matches[t].(state := Aborted, cause := OtherCause));
      }
    case BanLifted(i, lift) =>
      if i < |s.bans| {
        var bans := s.bans[i := s.bans[i].(lifted := Some(lift))];
        forall t, id
          ensures BansAbout(bans, t, id) == BansAbout(s.bans, t, id)
        {
          LiftKeepsCount(s.bans, i, lift, t, id);
        }
        BansKeep(s, bans);
      }
    case BannedElse(ban) =>
      if ban.about.None? {
        assert (s.bans + [ban])[..|s.bans|] == s.bans;
        BansKeep(s, s.bans + [ban]);
      }
  }

  lemma StepKeeps(s: Site, e: Event)
    requires Kept(s) && CanHappen(s, e)
    ensures Kept(After(s, e))
  {
    hide Kept;
    match e
    case Line(t, id, before) => LineKeeps(s, t, id, before);
    case ConfirmLost(t) => if t in s.waits && s.waits[t].Confirming? { WaitsAreKnown(s, t); DoneKeeps(s, t); }
    case Answered(t, c, resolve, canEnd, now) => ConfirmedKeeps(s, t, c, resolve, canEnd, now);
    case EndSettled(t, answer) => EndedKeeps(s, t, answer);
    case Result(t, abandoners, decided, now) => ResultKeeps(s, t, abandoners, decided, now);
    case Other(o) => ElsewhereKeeps(s, o);
  }

  lemma WaitsAreKnown(s: Site, t: Token)
    requires Kept(s) && t in s.waits
    ensures t in s.matches
  {
  }

  // ---------- over every run ----------

  ghost function Run(s: Site, events: seq<Event>): Site {
    if events == [] then s else After(Run(s, events[..|events| - 1]), events[|events| - 1])
  }

  ghost predicate Happens(s: Site, events: seq<Event>) {
    events == [] || (
      var before := events[..|events| - 1];
      Happens(s, before) && CanHappen(Run(s, before), events[|events| - 1]))
  }

  lemma {:induction false} RunKeeps(s: Site, events: seq<Event>)
    requires Kept(s) && Happens(s, events)
    ensures Kept(Run(s, events))
    decreases |events|
  {
    hide Kept, After, CanHappen;
    if events != [] {
      RunKeeps(s, events[..|events| - 1]);
      StepKeeps(Run(s, events[..|events| - 1]), events[|events| - 1]);
    }
  }

  const EmptySite := Site(map[], map[], [], {}, map[], multiset{})

  /**
   From an empty site, whatever happens in whatever order: one ban for each player and match on
   record and none without; the quitters of a match share one outcome; a match aborted for abandon
   has only undecided rows, no call left running, and was wrapped up exactly once.
   */
  lemma AbandonsAreSound(events: seq<Event>, t: Token, id: Id)
    requires Happens(EmptySite, events)
    ensures
      var s := Run(EmptySite, events);
      && BansAbout(s.bans, t, id) == (if (t, id) in s.rows then 1 else 0)
      && (forall other | (t, id) in s.rows && (t, other) in s.rows ::
            s.rows[(t, other)].decided == s.rows[(t, id)].decided)
      && (t in s.matches && s.matches[t].cause == ForAbandon && (t, id) in s.rows ==> s.rows[(t, id)].decided == None)
      && (t in s.matches && s.matches[t].cause == ForAbandon ==> s.matches[t].state == Aborted && t !in s.inFlight)
      && s.wrapped[t] == (if t in s.matches && s.matches[t].cause == ForAbandon then 1 else 0)
  {
    assert Kept(EmptySite);
    RunKeeps(EmptySite, events);
    var s := Run(EmptySite, events);
    if t in s.matches {
      assert MatchFits(s, t);
      var all :| AllDecided(s.rows, t, all);
    } else {
      assert (t, id) in s.rows ==> (t, id).0 in s.matches;
    }
  }

  /** A match that is over stays as it ended: a completed one is never turned into an aborted one. */
  lemma OverStaysOver(s: Site, e: Event, t: Token)
    requires t in s.matches && !Open(s.matches[t])
    ensures t in After(s, e).matches
    ensures After(s, e).matches[t].state == s.matches[t].state && After(s, e).matches[t].cause == s.matches[t].cause
  {
    hide Record, RecordOne, BanMinutes, Resolved, Undecided, AnyRow;
  }

  /** A new ban is of 1, 3 or 7 days by how many of the last 30 days' bans count, and counts itself for the next. */
  lemma NextRung(s: Site, t: Token, id: Id, decided: Option<Side>, gg: Option<Gg>, now: int)
    requires t in s.matches && id in s.matches[t].roster && (t, id) !in s.rows
    ensures
      var r := RecordOne(s, t, id, decided, gg, now);
      var n := AbandonsSince(s.bans, id, now - WINDOW_MS);
      && r.bans[|s.bans|].minutes == (if n == 0 then 1440 else if n == 1 then 4320 else 10080)
      && AbandonsSince(r.bans, id, now - WINDOW_MS) == n + 1
  {
    var r := RecordOne(s, t, id, decided, gg, now);
    assert r.bans[..|r.bans| - 1] == s.bans;
  }
}
