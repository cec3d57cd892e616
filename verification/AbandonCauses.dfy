/**
 Why a quitter is on record, a ban was filed or a match was aborted (src/abandon.ts): a log line alone never does
 it. What does is the game server's own answer about the match, or the dump of a match already decided.
 */
module AbandonCauses {
  import opened Wrappers
  import opened Abandon
  import opened AbandonLaws

  // ---------- what the server says ----------

  /** The answer lists an account of this player. */
  predicate Names(c: Confirm, resolve: Id -> Id, id: Id) {
    exists i | 0 <= i < |c.abandoners| :: resolve(c.abandoners[i]) == id
  }

  /** The server's answer about the line on match `t` that is waited for. */
  predicate AnswersLine(s: Site, e: Event, t: Token) {
    e.Answered? && e.t == t && t in s.matches && t in s.waits && s.waits[t].Confirming?
  }

  /** It says that the line's player abandoned the match. */
  predicate Confirms(s: Site, e: Event, t: Token) {
    AnswersLine(s, e, t) && (e.c.abandoner || Names(e.c, e.resolve, s.waits[t].id))
  }

  /** It is about this player: the line's own, or one it names. */
  predicate ConfirmedOf(s: Site, e: Event, t: Token, id: Id) {
    Confirms(s, e, t) && (id == s.waits[t].id || Names(e.c, e.resolve, id))
  }

  predicate OnRecord(s: Site, t: Token) {
    exists k | k in s.rows :: k.0 == t
  }

  predicate OnRecordDecided(s: Site, t: Token) {
    exists k | k in s.rows :: k.0 == t && s.rows[k].decided.Some?
  }

  /** The result of an open match that is on record as decided names this player. */
  predicate DumpNames(s: Site, e: Event, t: Token, id: Id) {
    && e.Result? && e.t == t && t in s.matches && Open(s.matches[t])
    && OnRecordDecided(s, t) && id in e.abandoners
  }

  /** The side the server gives an undecided match to: a pug's, when it knows one and can be told to end it. */
  function SideGiven(m: Match, c: Confirm, canEnd: bool): Option<Side> {
    if m.pug && canEnd && c.gg.Some? then c.gg.value.decided else None
  }

  lemma NamedAre(c: Confirm, resolve: Id -> Id)
    ensures forall id :: id in Resolved(c.abandoners, resolve) <==> Names(c, resolve, id)
  {
    var named := Resolved(c.abandoners, resolve);
    forall id ensures id in named <==> Names(c, resolve, id) {
      if id in named {
        var i :| 0 <= i < |named| && named[i] == id;
        assert resolve(c.abandoners[i]) == id;
      }
      if i :| 0 <= i < |c.abandoners| && resolve(c.abandoners[i]) == id { assert named[i] == id; }
    }
  }

  /** What the call found before it asked still is so when the answer comes. */
  lemma WaitIsCurrent(s: Site, t: Token)
    requires Kept(s) && t in s.matches && t in s.waits && s.waits[t].Confirming?
    ensures s.waits[t].hadRows <==> OnRecord(s, t)
    ensures s.waits[t].hadRows ==> (s.waits[t].before.Some? <==> OnRecordDecided(s, t))
    ensures AllDecided(s.rows, t, s.waits[t].before)
  {
    assert MatchFits(s, t);
    var w := s.waits[t];
    assert WaitFits(s, t, w);
    if OnRecord(s, t) {
      var k :| k in s.rows && k.0 == t;
      assert (t, k.1) in s.rows && s.rows[(t, k.1)].decided == w.before;
    }
    if k :| k in s.rows && k.0 == t && s.rows[k].decided.Some? { assert (t, k.1) in s.rows; }
  }

  // ---------- an answer ----------

  /** An answer that confirms nobody changes nothing but that the call is over. */
  lemma UnconfirmedChangesNothing(s: Site, e: Event, t: Token)
    requires AnswersLine(s, e, t) && !Confirms(s, e, t)
    ensures After(s, e) == s.(inFlight := s.inFlight - {t}, waits := s.waits - {t})
  {
    NamedAre(e.c, e.resolve);
  }

  /** The first quitters of an open match: the side given, if any, is recorded for every rostered one, with the
      score's gap, and decides whether the match is aborted now or still to be ended. */
  lemma FirstAnswerRecords(s: Site, e: Event, t: Token, id: Id)
    requires Kept(s) && Confirms(s, e, t) && !OnRecord(s, t) && Open(s.matches[t])
    ensures
      var r, m := After(s, e), s.matches[t];
      var side := SideGiven(m, e.c, e.canEnd);
      && ((t, id) in r.rows <==> id in m.roster && ConfirmedOf(s, e, t, id))
      && ((t, id) in r.rows ==>
            r.rows[(t, id)] == Row(m.roster[id], side, if e.c.gg.Some? then Some(e.c.gg.value.gap) else None,
                                   if e.c.gg.Some? then Some(e.c.gg.value.ceiling) else None))
      && (side.Some? ==> r.matches == s.matches && r.wrapped == s.wrapped
                         && t in r.waits && r.waits[t] == Ending(s.waits[t].id, side.value))
      && (side.None? ==> r.matches == s.matches[t := m.(state := Aborted, cause := ForAbandon)] && t !in r.waits
                         && r.wrapped == s.wrapped + multiset{t})
  {
    var w, named, m := s.waits[t], Resolved(e.c.abandoners, e.resolve), s.matches[t];
    var side := SideGiven(m, e.c, e.canEnd);
    NamedAre(e.c, e.resolve);
    WaitIsCurrent(s, t);
    hide Kept, Record, Resolved, Names, AnyRow;
    var from := if side.None? then Abort(s, t) else s;
    NotOnRecord(s, t, id);
    RecordWrites(from, t, [w.id] + named, side, e.c.gg, e.now, id);
  }

  lemma NotOnRecord(s: Site, t: Token, id: Id)
    requires !OnRecord(s, t)
    ensures (t, id) !in s.rows
  {
    assert (t, id) in s.rows ==> (t, id).0 == t;
  }

  lemma {:induction false} RecordWrites(s: Site, t: Token, ids: seq<Id>, decided: Option<Side>, gg: Option<Gg>,
                                        now: int, id: Id)
    requires t in s.matches && (t, id) !in s.rows
    ensures
      var r := Record(s, t, ids, decided, gg, now);
      && ((t, id) in r.rows <==> id in s.matches[t].roster && id in ids)
      && ((t, id) in r.rows ==>
            r.rows[(t, id)] == Row(s.matches[t].roster[id], decided, if gg.Some? then Some(gg.value.gap) else None,
                                   if gg.Some? then Some(gg.value.ceiling) else None))
    decreases |ids|
  {
    if ids != [] {
      assert ids == ids[..|ids| - 1] + [ids[|ids| - 1]];
      RecordWrites(s, t, ids[..|ids| - 1], decided, gg, now, id);
    }
  }

  /** A later quitter of a match already decided joins its outcome, and the end is asked for again. */
  lemma LaterAnswerJoins(s: Site, e: Event, t: Token, id: Id)
    requires Kept(s) && Confirms(s, e, t) && OnRecord(s, t)
    ensures
      var r, w := After(s, e), s.waits[t];
      && r.matches == s.matches && r.wrapped == s.wrapped
      && (!OnRecordDecided(s, t) ==> r.rows == s.rows && r.bans == s.bans && t !in r.waits)
      && (OnRecordDecided(s, t) ==>
            && ((t, id) in r.rows <==> (t, id) in s.rows || (id == w.id && id in s.matches[t].roster))
            && ((t, id) in r.rows ==> r.rows[(t, id)].decided.Some?)
            && (forall other | (t, other) in s.rows && (t, id) in r.rows ::
                  r.rows[(t, id)].decided == s.rows[(t, other)].decided)
            && t in r.waits && r.waits[t].Ending? && r.waits[t].id == w.id
            && (forall other | (t, other) in s.rows :: s.rows[(t, other)].decided == Some(r.waits[t].decided)))
  {
    var w := s.waits[t];
    NamedAre(e.c, e.resolve);
    WaitIsCurrent(s, t);
    hide Kept, Record, Resolved, Names, AnyRow;
    if w.before.Some? {
      RecordAdds(s, t, [w.id], w.before, None, e.now);
      if (t, id) !in s.rows { RecordWrites(s, t, [w.id], w.before, None, e.now, id); }
    }
  }

  // ---------- a row, a ban ----------

  /** A line waits for the server; nothing else comes of it. */
  lemma LineOnlyAsks(s: Site, t: Token, id: Id, before: Option<Side>)
    ensures
      var r := After(s, Line(t, id, before));
      && r.matches == s.matches && r.rows == s.rows && r.bans == s.bans && r.wrapped == s.wrapped
      && (r != s ==>
            && t in s.matches && Open(s.matches[t]) && s.matches[t].onServer && !s.matches[t].booked
            && id in s.matches[t].roster && t !in s.inFlight && t in r.inFlight && t in r.waits
            && (if (t, id) in s.rows
                then s.rows[(t, id)].decided.Some? && r.waits[t] == Ending(id, s.rows[(t, id)].decided.value)
                else r.waits[t].Confirming? && r.waits[t].id == id))
  {
    hide AnyRow;
  }

  /** Such a line is always asked about. */
  lemma LineIsAskedAbout(s: Site, t: Token, id: Id, before: Option<Side>)
    requires t in s.matches && Open(s.matches[t]) && s.matches[t].onServer && !s.matches[t].booked
    requires id in s.matches[t].roster && t !in s.inFlight
    requires (t, id) in s.rows ==> s.rows[(t, id)].decided.Some?
    ensures
      var r := After(s, Line(t, id, before));
      t in r.inFlight && t in r.waits && r.waits[t].id == id
  {
    hide AnyRow;
  }

  /** The result of an open match completes it, and adds the players its dump names when it was decided. */
  lemma ResultCompletes(s: Site, t: Token, abandoners: seq<Id>, decided: Option<Side>, now: int, id: Id)
    requires Kept(s) && CanHappen(s, Result(t, abandoners, decided, now)) && t in s.matches && Open(s.matches[t])
    requires (t, id) !in s.rows
    ensures
      var e := Result(t, abandoners, decided, now);
      var r := After(s, e);
      && r.matches == s.matches[t := s.matches[t].(state := Completed)] && r.wrapped == s.wrapped
      && ((t, id) in r.rows <==> id in s.matches[t].roster && DumpNames(s, e, t, id))
      && ((t, id) in r.rows ==> forall other | (t, other) in s.rows ::
            r.rows[(t, id)].decided == s.rows[(t, other)].decided)
  {
    DecidedOnRecord(s, t, decided);
    var done := s.(matches := s.matches[t := s.matches[t].(state := Completed)]);
    hide Record, Kept, DecidedFor, OnRecordDecided;
    if decided.Some? { RecordWrites(done, t, abandoners, decided, None, now, id); }
  }

  lemma DecidedOnRecord(s: Site, t: Token, decided: Option<Side>)
    requires Kept(s) && t in s.matches && DecidedFor(s.rows, t, decided)
    ensures decided.Some? <==> OnRecordDecided(s, t)
    ensures AllDecided(s.rows, t, decided)
  {
    assert MatchFits(s, t);
    DecidedForIsAll(s, t, decided);
    if decided.Some? {
      var id :| (t, id) in s.rows && s.rows[(t, id)].decided == decided;
      assert (t, id).0 == t;
    }
    if k :| k in s.rows && k.0 == t && s.rows[k].decided.Some? { assert (t, k.1) in s.rows; }
  }

  /** The answer files this player: on a match without quitters any it confirms, on a decided one the line's. */
  predicate AnswerFiles(s: Site, e: Event, t: Token, id: Id) {
    && ConfirmedOf(s, e, t, id)
    && if OnRecord(s, t) then OnRecordDecided(s, t) && id == s.waits[t].id else Open(s.matches[t])
  }

  /** A player comes on record exactly when rostered and confirmed by the server or named by a decided match's dump. */
  lemma ComesOnRecordIff(s: Site, e: Event, t: Token, id: Id)
    requires Kept(s) && CanHappen(s, e) && t in s.matches && (t, id) !in s.rows
    ensures (t, id) in After(s, e).rows <==>
            id in s.matches[t].roster && (AnswerFiles(s, e, t, id) || DumpNames(s, e, t, id))
  {
    if Confirms(s, e, t) {
      hide Kept, Names, OnRecordDecided, After;
      if OnRecord(s, t) {
        LaterAnswerJoins(s, e, t, id);
      } else if Open(s.matches[t]) {
        FirstAnswerRecords(s, e, t, id);
      } else {
        OverIsNotRecorded(s, e, t);
      }
    } else if e.Result? && e.t == t && Open(s.matches[t]) {
      hide After, Kept, CanHappen, OnRecordDecided;
      ResultCompletes(s, t, e.abandoners, e.decided, e.now, id);
    } else {
      OtherRowsStay(s, e, t, id);
    }
  }

  lemma OverIsNotRecorded(s: Site, e: Event, t: Token)
    requires Kept(s) && Confirms(s, e, t) && !OnRecord(s, t) && !Open(s.matches[t])
    ensures After(s, e).rows == s.rows
  {
    NamedAre(e.c, e.resolve);
    WaitIsCurrent(s, t);
    hide Kept, Record, Resolved, Names, AnyRow;
  }

  /** No other step touches the rows of the match. */
  lemma OtherRowsStay(s: Site, e: Event, t: Token, id: Id)
    requires !Confirms(s, e, t) && !(e.Result? && e.t == t && t in s.matches && Open(s.matches[t]))
    ensures (t, id) in After(s, e).rows <==> (t, id) in s.rows
  {
    match e
    case Line(u, line, before) => LineOnlyAsks(s, u, line, before);
    case Answered(u, c, resolve, canEnd, now) =>
      if u == t && AnswersLine(s, e, t) { UnconfirmedChangesNothing(s, e, t); } else { OtherAnswer(s, e, t, id); }
    case Result(u, abandoners, decided, now) => OtherResult(s, e, t, id);
    case EndSettled(u, answer) => UndecidedRows(s.rows, u);
    case ConfirmLost(_) =>
    case Other(_) =>
  }

  lemma OtherAnswer(s: Site, e: Event, t: Token, id: Id)
    requires e.Answered? && (e.t != t || !AnswersLine(s, e, t))
    ensures (t, id) in After(s, e).rows <==> (t, id) in s.rows
  {
    hide Record, Resolved;
    if AnswersLine(s, e, e.t) {
      var w, named := s.waits[e.t], Resolved(e.c.abandoners, e.resolve);
      var gg, side := e.c.gg, SideGiven(s.matches[e.t], e.c, e.canEnd);
      RecordElsewhere(s, e.t, [w.id], w.before, None, e.now, t, id);
      RecordElsewhere(s, e.t, [w.id] + named, side, gg, e.now, t, id);
      RecordElsewhere(Abort(s, e.t), e.t, [w.id] + named, side, gg, e.now, t, id);
    }
  }

  lemma OtherResult(s: Site, e: Event, t: Token, id: Id)
    requires e.Result? && (e.t != t || t !in s.matches || !Open(s.matches[t]))
    ensures (t, id) in After(s, e).rows <==> (t, id) in s.rows
  {
    hide Record;
    if e.t in s.matches && Open(s.matches[e.t]) {
      var done := s.(matches := s.matches[e.t := s.matches[e.t].(state := Completed)]);
      RecordElsewhere(done, e.t, e.abandoners, e.decided, None, e.now, t, id);
    }
  }

  lemma RecordElsewhere(s: Site, u: Token, ids: seq<Id>, decided: Option<Side>, gg: Option<Gg>, now: int,
                        t: Token, id: Id)
    requires u in s.matches
    ensures u != t ==> ((t, id) in Record(s, u, ids, decided, gg, now).rows <==> (t, id) in s.rows)
  {
    RecordAdds(s, u, ids, decided, gg, now);
  }

  // ---------- an abort ----------

  /** The plugin would not end the match it was asked to end. */
  predicate RefusesEnd(s: Site, e: Event, t: Token) {
    e.EndSettled? && e.t == t && e.answer == Refused && t in s.waits && s.waits[t].Ending?
  }

  /** The first answer that confirms a quitter, with no side to give the match to; or a refused end. */
  predicate AbortsForAbandon(s: Site, e: Event, t: Token) {
    && t in s.matches && Open(s.matches[t])
    && (RefusesEnd(s, e, t)
        || (Confirms(s, e, t) && !OnRecord(s, t) && SideGiven(s.matches[t], e.c, e.canEnd).None?))
  }

  /** A refused end aborts the match, wraps it up and leaves its quitters on record without a side. */
  lemma RefusedEndAborts(s: Site, e: Event, t: Token)
    requires RefusesEnd(s, e, t) && t in s.matches && Open(s.matches[t])
    ensures
      var r := After(s, e);
      && r.matches == s.matches[t := s.matches[t].(state := Aborted, cause := ForAbandon)]
      && r.wrapped == s.wrapped + multiset{t} && t !in r.waits && r.bans == s.bans && r.rows.Keys == s.rows.Keys
      && forall k | k in s.rows :: r.rows[k] == if k.0 == t then s.rows[k].(decided := None) else s.rows[k]
  {
  }

  /** Any other answer to the end leaves it to the collector or to the next line. */
  lemma EndOnlySettles(s: Site, t: Token, answer: EndAnswer)
    requires t in s.matches && t in s.waits && s.waits[t].Ending? && (answer != Refused || !Open(s.matches[t]))
    ensures After(s, EndSettled(t, answer)) == s.(inFlight := s.inFlight - {t}, waits := s.waits - {t})
  {
  }

  /** A match is aborted for abandon by those two and by nothing else, and by each of them always. */
  lemma AbortedForAbandonIff(s: Site, e: Event, t: Token)
    requires Kept(s) && CanHappen(s, e) && t in s.matches && s.matches[t].cause != ForAbandon
    ensures t in After(s, e).matches
    ensures After(s, e).matches[t].cause == ForAbandon <==> AbortsForAbandon(s, e, t)
  {
    if Confirms(s, e, t) {
      AnswerAborts(s, e, t);
    } else if RefusesEnd(s, e, t) && Open(s.matches[t]) {
      RefusedEndAborts(s, e, t);
    } else {
      OtherCauseStays(s, e, t);
    }
  }

  lemma AnswerAborts(s: Site, e: Event, t: Token)
    requires Kept(s) && Confirms(s, e, t) && s.matches[t].cause != ForAbandon
    ensures t in After(s, e).matches
    ensures After(s, e).matches[t].cause == ForAbandon <==> AbortsForAbandon(s, e, t)
  {
    hide Kept, After;
    if OnRecord(s, t) {
      LaterAnswerJoins(s, e, t, s.waits[t].id);
    } else if Open(s.matches[t]) {
      FirstAnswerRecords(s, e, t, s.waits[t].id);
    } else {
      OverStaysOver(s, e, t);
    }
  }

  lemma OtherCauseStays(s: Site, e: Event, t: Token)
    requires !Confirms(s, e, t) && !(RefusesEnd(s, e, t) && t in s.matches && Open(s.matches[t]))
    requires t in s.matches && s.matches[t].cause != ForAbandon
    ensures t in After(s, e).matches && After(s, e).matches[t].cause != ForAbandon
  {
    match e
    case Line(u, line, before) => LineOnlyAsks(s, u, line, before);
    case Answered(u, c, resolve, canEnd, now) =>
      hide Record, Resolved;
      if u == t && AnswersLine(s, e, t) { UnconfirmedChangesNothing(s, e, t); }
    case Result(_, _, _, _) => hide Record;
    case EndSettled(u, answer) =>
    case ConfirmLost(_) =>
    case Other(_) =>
  }

  // ---------- over every run ----------

  /** At step `k` of the run the server or a dump put this player on record. */
  ghost predicate PutOnRecordAt(events: seq<Event>, k: nat, t: Token, id: Id)
    requires k < |events|
  {
    var s := Run(EmptySite, events[..k]);
    && t in s.matches && id in s.matches[t].roster
    && (AnswerFiles(s, events[k], t, id) || DumpNames(s, events[k], t, id))
  }

  /** At step `k` an open match was aborted for want of a side to give it to. */
  ghost predicate AbortedAt(events: seq<Event>, k: nat, t: Token)
    requires k < |events|
  {
    AbortsForAbandon(Run(EmptySite, events[..k]), events[k], t)
  }

  lemma RunIsKept(events: seq<Event>)
    requires Happens(EmptySite, events)
    ensures Kept(Run(EmptySite, events))
  {
    assert Kept(EmptySite);
    RunKeeps(EmptySite, events);
  }

  /** Nobody is on record for a match but by the server's answer about it, or by the dump of a decided one. */
  lemma {:induction false} EveryQuitterWasConfirmed(events: seq<Event>, t: Token, id: Id)
    requires Happens(EmptySite, events) && (t, id) in Run(EmptySite, events).rows
    ensures exists k: nat :: k < |events| && PutOnRecordAt(events, k, t, id)
    decreases |events|
  {
    var n := |events| - 1;
    var before, s, e := events[..n], Run(EmptySite, events[..n]), events[n];
    if (t, id) in s.rows {
      EveryQuitterWasConfirmed(before, t, id);
      var k: nat :| k < |before| && PutOnRecordAt(before, k, t, id);
      assert events[..k] == before[..k];
      assert PutOnRecordAt(events, k, t, id);
    } else {
      RunIsKept(before);
      hide Kept, AnswerFiles, DumpNames, Confirms;
      if t in s.matches { ComesOnRecordIff(s, e, t, id); } else { UnknownStaysOff(s, e, t, id); }
      assert PutOnRecordAt(events, n, t, id);
    }
  }

  lemma UnknownStaysOff(s: Site, e: Event, t: Token, id: Id)
    requires t !in s.matches && (t, id) !in s.rows
    ensures (t, id) !in After(s, e).rows
  {
    OtherRowsStay(s, e, t, id);
  }

  lemma {:induction false} BanIsCounted(bans: seq<Ban>, b: Ban, t: Token, id: Id)
    requires b in bans && b.about == Some(t) && b.player == id
    ensures BansAbout(bans, t, id) >= 1
    decreases |bans|
  {
    var n := |bans| - 1;
    assert bans == bans[..n] + [bans[n]];
    if bans[n] != b { BanIsCounted(bans[..n], b, t, id); }
  }

  /** Nor is anyone banned for one. */
  lemma EveryBanWasConfirmed(events: seq<Event>, b: Ban)
    requires Happens(EmptySite, events) && b in Run(EmptySite, events).bans && b.about.Some?
    ensures exists k: nat :: k < |events| && PutOnRecordAt(events, k, b.about.value, b.player)
  {
    var t, id := b.about.value, b.player;
    BanIsCounted(Run(EmptySite, events).bans, b, t, id);
    AbandonsAreSound(events, t, id);
    EveryQuitterWasConfirmed(events, t, id);
  }

  /** No match is aborted for abandon but by such an answer or a refused end. */
  lemma {:induction false} EveryAbortWasConfirmed(events: seq<Event>, t: Token)
    requires Happens(EmptySite, events)
    requires t in Run(EmptySite, events).matches && Run(EmptySite, events).matches[t].cause == ForAbandon
    ensures exists k: nat :: k < |events| && AbortedAt(events, k, t)
    decreases |events|
  {
    var n := |events| - 1;
    var before, s, e := events[..n], Run(EmptySite, events[..n]), events[n];
    if t in s.matches && s.matches[t].cause == ForAbandon {
      EveryAbortWasConfirmed(before, t);
      var k: nat :| k < |before| && AbortedAt(before, k, t);
      assert events[..k] == before[..k];
      assert AbortedAt(events, k, t);
    } else {
      RunIsKept(before);
      hide Kept, AbortsForAbandon;
      if t in s.matches { AbortedForAbandonIff(s, e, t); } else { NewMatchIsOpen(s, e, t); }
      assert AbortedAt(events, n, t);
    }
  }

  lemma NewMatchIsOpen(s: Site, e: Event, t: Token)
    requires t !in s.matches
    ensures t in After(s, e).matches ==> After(s, e).matches[t].cause == NoCause
  {
    hide Record, Resolved, AnyRow;
  }

  // ---------- the ladder ----------

  /** The bans the ladder counts: of this player, for a match, in the window, and not lifted early by hand. */
  function LadderBans(bans: seq<Ban>, player: Id, since: int): set<nat> {
    set i | && 0 <= i < |bans| && bans[i].player == player && bans[i].about.Some? && bans[i].created >= since
            && (bans[i].lifted.Some? && !bans[i].lifted.value.bySystem ==>
                  bans[i].lifted.value.at >= bans[i].created + 60000 * bans[i].minutes)
  }

  lemma {:induction false} LadderCounts(bans: seq<Ban>, player: Id, since: int)
    ensures AbandonsSince(bans, player, since) == |LadderBans(bans, player, since)|
    decreases |bans|
  {
    if bans != [] {
      var n := |bans| - 1;
      LadderCounts(bans[..n], player, since);
      var all, before := LadderBans(bans, player, since), LadderBans(bans[..n], player, since);
      assert all == if n in all then before + {n} else before;
    }
  }
}
