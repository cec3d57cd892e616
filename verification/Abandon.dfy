/**
 Abandons (src/abandon.ts): one call of handleAbandon runs from await to await,
 and anything may happen in between. A match is known by its token. Times are
 whole milliseconds.
 */
module Abandon {
  import opened Wrappers
  import opened Seqs

  type Token = string
  type Id = string

  datatype Side = A | B
  datatype State = Configuring | Live | Completed | Aborted
  datatype Cause = NoCause | ForAbandon | OtherCause

  datatype Match = Match(state: State, cause: Cause, onServer: bool, booked: bool, pug: bool, roster: map<Id, Side>)

  datatype Row = Row(team: Side, decided: Option<Side>, gap: Option<int>, ceiling: Option<int>)

  datatype Lift = Lift(at: int, bySystem: bool)

  /** `about` is the match an abandon ban names in its reason. */
  datatype Ban = Ban(player: Id, about: Option<Token>, created: int, minutes: int, lifted: Option<Lift>)

  /** The STATUS gg line: `decided` only when it was known. */
  datatype Gg = Gg(decided: Option<Side>, gap: int, ceiling: int)
  datatype Confirm = Confirm(abandoner: bool, abandoners: seq<Id>, gg: Option<Gg>)

  /** What a call of handleAbandon is waiting for. */
  datatype Wait =
    | Confirming(id: Id, hadRows: bool, before: Option<Side>)
    | Ending(id: Id, decided: Side)

  /** `wrapped` counts the runs of abortForAbandon: archive, losses, release, requeue. */
  datatype Site = Site(
    matches: map<Token, Match>,
    rows: map<(Token, Id), Row>,
    bans: seq<Ban>,
    inFlight: set<Token>,
    waits: map<Token, Wait>,
    wrapped: multiset<Token>)

  const LADDER_MINUTES := [1440, 4320, 10080]
  const WINDOW_MS := 30 * 24 * 60 * 60 * 1000
  const MINUTE_MS := 60 * 1000

  // ---------- the ladder ----------

  /** A ban staff lifted by hand before it ran out does not count. */
  predicate Counts(b: Ban, player: Id, since: int) {
    && b.player == player && b.about.Some? && b.created >= since
    && (b.lifted.None? || b.lifted.value.bySystem || b.lifted.value.at >= b.created + b.minutes * MINUTE_MS)
  }

  function AbandonsSince(bans: seq<Ban>, player: Id, since: int): nat {
    if bans == [] then 0
    else AbandonsSince(bans[..|bans| - 1], player, since) + if Counts(bans[|bans| - 1], player, since) then 1 else 0
  }

  function BanMinutes(bans: seq<Ban>, player: Id, now: int): int {
    var n := AbandonsSince(bans, player, now - WINDOW_MS);
    LADDER_MINUTES[if n < 2 then n else 2]
  }

  // ---------- recordAbandons ----------

  predicate Open(m: Match) {
    m.state == Configuring || m.state == Live
  }

  /** A row and a ban for a rostered player not yet on record. */
  function RecordOne(s: Site, t: Token, id: Id, decided: Option<Side>, gg: Option<Gg>, now: int): Site
    requires t in s.matches
  {
    if id !in s.matches[t].roster || (t, id) in s.rows then s
    else
      var gap := if gg.Some? then Some(gg.value.gap) else None;
      var ceiling := if gg.Some? then Some(gg.value.ceiling) else None;
      var row := Row(s.matches[t].roster[id], decided, gap, ceiling);
      s.(rows := s.rows[(t, id) := row], bans := s.bans + [Ban(id, Some(t), now, BanMinutes(s.bans, id, now), None)])
  }

  function Record(s: Site, t: Token, ids: seq<Id>, decided: Option<Side>, gg: Option<Gg>, now: int): (r: Site)
    requires t in s.matches
    ensures r.matches == s.matches && r.inFlight == s.inFlight && r.waits == s.waits && r.wrapped == s.wrapped
  {
    if ids == [] then s
    else RecordOne(Record(s, t, ids[..|ids| - 1], decided, gg, now), t, ids[|ids| - 1], decided, gg, now)
  }

  // ---------- the steps ----------

  predicate AnyRow(rows: map<(Token, Id), Row>, t: Token) {
    exists k | k in rows :: k.0 == t
  }

  /** A side some row of the match was decided for, or none when none was. */
  ghost predicate DecidedFor(rows: map<(Token, Id), Row>, t: Token, decided: Option<Side>) {
    if decided.Some? then exists id :: (t, id) in rows && rows[(t, id)].decided == decided
    else forall id | (t, id) in rows :: rows[(t, id)].decided.None?
  }

  function Done(s: Site, t: Token): Site {
    s.(inFlight := s.inFlight - {t}, waits := s.waits - {t})
  }

  function WaitingFor(s: Site, t: Token, w: Wait): Site {
    s.(inFlight := s.inFlight + {t}, waits := s.waits[t := w])
  }

  function Abort(s: Site, t: Token): Site
    requires t in s.matches
  {
    s.(matches := s.matches[t := s.matches[t].(state := Aborted, cause := ForAbandon)],
       wrapped := s.wrapped + multiset{t})
  }

  /** Only a call for an open, unbooked match on a server, about a rostered player, and not beside another call. */
  predicate Handled(s: Site, t: Token, id: Id) {
    && t in s.matches && Open(s.matches[t]) && s.matches[t].onServer && !s.matches[t].booked
    && id in s.matches[t].roster && t !in s.inFlight
  }

  /** Up to the first await. `hadRows` and `before` are what the SELECT found. */
  function Begun(s: Site, t: Token, id: Id, hadRows: bool, before: Option<Side>): Site {
    if !Handled(s, t, id) then s
    else if (t, id) in s.rows then
      (match s.rows[(t, id)].decided
       case None => s
       case Some(side) => WaitingFor(s, t, Ending(id, side)))
    else WaitingFor(s, t, Confirming(id, hadRows, before))
  }

  /** From the answer of `confirm` to the next await or the end. */
  function Confirmed(s: Site, t: Token, c: Confirm, resolve: Id -> Id, canEnd: bool, now: int): Site {
    if t !in s.matches || t !in s.waits || !s.waits[t].Confirming? then s
    else
      var w := s.waits[t];
      var named := Resolved(c.abandoners, resolve);
      if !c.abandoner && w.id !in named then Done(s, t)
      else if w.hadRows then
        (match w.before
         case None => Done(s, t)
         case Some(side) => WaitingFor(Record(s, t, [w.id], w.before, None, now), t, Ending(w.id, side)))
      else
        var decided := if s.matches[t].pug && canEnd && c.gg.Some? then c.gg.value.decided else None;
        if !Open(s.matches[t]) then Done(s, t)
        else
          match decided
          case None => Done(Record(Abort(s, t), t, [w.id] + named, None, c.gg, now), t)
          case Some(side) => WaitingFor(Record(s, t, [w.id] + named, decided, c.gg, now), t, Ending(w.id, side))
  }

  function Resolved(ids: seq<Id>, resolve: Id -> Id): (r: seq<Id>)
    ensures |r| == |ids| && forall i | 0 <= i < |ids| :: r[i] == resolve(ids[i])
  {
    seq(|ids|, i requires 0 <= i < |ids| => resolve(ids[i]))
  }

  /** `UPDATE match_abandons SET decided = NULL` for one match. */
  function Undecided(rows: map<(Token, Id), Row>, t: Token): map<(Token, Id), Row> {
    map k | k in rows :: if k.0 == t then rows[k].(decided := None) else rows[k]
  }

  datatype EndAnswer = Ok | Refused | Unreachable

  /** From the answer of `endDecided`: refused aborts, if the match is still open. */
  function Ended(s: Site, t: Token, answer: EndAnswer): Site {
    if t !in s.matches || t !in s.waits || !s.waits[t].Ending? then s
    else if answer == Refused && Open(s.matches[t]) then
      Done(Abort(s, t).(rows := Undecided(s.rows, t)), t)
    else Done(s, t)
  }

  /** completeMatch: the dump's abandoners join only a match already on record as a decided abandon. */
  function Collected(s: Site, t: Token, abandoners: seq<Id>, decided: Option<Side>, now: int): Site {
    if t !in s.matches || !Open(s.matches[t]) then s
    else
      var done := s.(matches := s.matches[t := s.matches[t].(state := Completed)]);
      if decided.None? then done else Record(done, t, abandoners, decided, None, now)
  }

  // ---------- the code ----------

  class AbandonDesk {
    var matches: map<Token, Match>
    var rows: map<(Token, Id), Row>
    var bans: seq<Ban>
    var inFlight: set<Token>
    var waits: map<Token, Wait>
    var wrapped: multiset<Token>

    ghost function Read(): Site
      reads this
    {
      Site(matches, rows, bans, inFlight, waits, wrapped)
    }

    method RecordAbandons(t: Token, ids: seq<Id>, decided: Option<Side>, gg: Option<Gg>, now: int)
      returns (recorded: seq<Id>)
      requires t in matches
      modifies this`rows, this`bans
      ensures Read() == Record(old(Read()), t, ids, decided, gg, now)
      ensures forall id :: id in recorded <==> (t, id) in rows && (t, id) !in old(rows)
    {
      recorded := [];
      for i := 0 to |ids|
        invariant Read() == Record(old(Read()), t, ids[..i], decided, gg, now)
        invariant forall k | k in old(rows) :: k in rows
        invariant forall id :: id in recorded <==> (t, id) in rows && (t, id) !in old(rows)
      {
        assert ids[..i + 1][..i] == ids[..i];
        var id := ids[i];
        if id !in matches[t].roster || (t, id) in rows { continue; }
        var minutes := BanMinutes(bans, id, now);
        var gap := if gg.Some? then Some(gg.value.gap) else None;
        var ceiling := if gg.Some? then Some(gg.value.ceiling) else None;
        rows := rows[(t, id) := Row(matches[t].roster[id], decided, gap, ceiling)];
        bans := bans + [Ban(id, Some(t), now, minutes, None)];
        recorded := recorded + [id];
      }
      assert ids[..|ids|] == ids;
    }

    /** `rows.find(decided !== null)?.decided ?? null`. */
    method FindDecided(t: Token) returns (decided: Option<Side>)
      ensures DecidedFor(rows, t, decided)
    {
      decided := None;
      if k :| k in rows && k.0 == t && rows[k].decided.Some? {
        decided := rows[k].decided;
        assert (t, k.1) in rows;
      }
    }

    method HandleAbandon(t: Token, id: Id) returns (ghost before: Option<Side>)
      modifies this`inFlight, this`waits
      ensures DecidedFor(rows, t, before)
      ensures Read() == Begun(old(Read()), t, id, AnyRow(rows, t), before)
    {
      var decided := FindDecided(t);
      before := decided;
      if t !in matches || !Open(matches[t]) || !matches[t].onServer { return; }
      if matches[t].booked { return; }
      if id !in matches[t].roster { return; }
      if t in inFlight { return; }
      if (t, id) in rows {
        if rows[(t, id)].decided.None? { return; }
        inFlight, waits := inFlight + {t}, waits[t := Ending(id, rows[(t, id)].decided.value)];
        return;
      }
      inFlight, waits := inFlight + {t}, waits[t := Confirming(id, AnyRow(rows, t), decided)];
    }

    method Finally(t: Token)
      modifies this`inFlight, this`waits
      ensures Read() == Done(old(Read()), t)
    {
      inFlight, waits := inFlight - {t}, waits - {t};
    }

    method AbortForAbandon(t: Token)
      requires t in matches
      modifies this`matches, this`wrapped
      ensures Read() == Abort(old(Read()), t)
    {
      matches := matches[t := matches[t].(state := Aborted, cause := ForAbandon)];
      wrapped := wrapped + multiset{t};
    }

    /** `answer` is None when the box could not be asked. */
    method AfterConfirm(t: Token, answer: Option<Confirm>, resolve: Id -> Id, canEnd: bool, now: int)
      requires t in matches && t in waits && waits[t].Confirming?
      modifies this
      ensures Read() ==
        if answer.None? then Done(old(Read()), t) else Confirmed(old(Read()), t, answer.value, resolve, canEnd, now)
    {
      if answer.None? { Finally(t); return; }
      var w, c := waits[t], answer.value;
      var named := Resolved(c.abandoners, resolve);
      if !c.abandoner && w.id !in named { Finally(t); return; }
      if w.hadRows {
        if w.before.None? { Finally(t); return; }
        var _ := RecordAbandons(t, [w.id], w.before, None, now);
        inFlight, waits := inFlight + {t}, waits[t := Ending(w.id, w.before.value)];
        return;
      }
      var decided := if matches[t].pug && canEnd && c.gg.Some? then c.gg.value.decided else None;
      if !Open(matches[t]) { Finally(t); return; }
      if decided.None? { AbortForAbandon(t); }
      var _ := RecordAbandons(t, [w.id] + named, decided, c.gg, now);
      if decided.None? { Finally(t); return; }
      inFlight, waits := inFlight + {t}, waits[t := Ending(w.id, decided.value)];
    }

    method AfterEndDecided(t: Token, answer: EndAnswer)
      requires t in matches && t in waits && waits[t].Ending?
      modifies this
      ensures Read() == Ended(old(Read()), t, answer)
    {
      if answer == Refused && Open(matches[t]) {
        AbortForAbandon(t);
        rows := Undecided(rows, t);
      }
      Finally(t);
    }

    /** The part of completeMatch that touches abandons. */
    method CompleteMatch(t: Token, abandoners: seq<Id>, now: int) returns (ghost decided: Option<Side>)
      requires t in matches
      modifies this
      ensures DecidedFor(old(rows), t, decided)
      ensures Read() == Collected(old(Read()), t, abandoners, decided, now)
    {
      var found := FindDecided(t);
      decided := found;
      if !Open(matches[t]) { return; }
      matches := matches[t := matches[t].(state := Completed)];
      if found.Some? {
        var _ := RecordAbandons(t, abandoners, found, None, now);
      }
    }
  }
}
