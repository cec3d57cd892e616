/**
 Holds on accounts that look like second ones (src/altHolds.ts): placing,
 lifting, banning and merging them. Rows are numbered in the order they were
 inserted; a player's status is left out.
 */
module AltHolds {
  import opened Wrappers

  type Id = string

  datatype Source = Discord | Fingerprint(person: int)
  datatype Resolution = Cleared | Banned | Merged

  datatype Hold = Hold(steamid: Id, other: Id, ban: nat, source: Source, resolution: Option<Resolution>)
  datatype Ban = Ban(player: Id, isHold: bool, lifted: bool, expires: Option<int>)

  /** `staff` are the accounts with an admin or moderator flag; `players` all that have a row. */
  datatype Desk = Desk(holds: seq<Hold>, bans: seq<Ban>, players: set<Id>, staff: set<Id>)

  datatype Refusal = WasCleared | OpenHold | Staff | Unknown

  predicate IsOpen(h: Hold) {
    h.resolution.None?
  }

  predicate Held(holds: seq<Hold>, s: Id) {
    exists h | h in holds :: h.steamid == s && IsOpen(h)
  }

  predicate SamePair(h: Hold, s: Id, other: Id, source: Source) {
    h.steamid == s && h.source == source && (source.Discord? ==> h.other == other)
  }

  /** Staff answered for this pair: the two accounts, or the account and the person. */
  predicate ClearedBefore(holds: seq<Hold>, s: Id, other: Id, source: Source) {
    exists h | h in holds :: SamePair(h, s, other, source) && h.resolution == Some(Cleared)
  }

  predicate ActiveBan(b: Ban, s: Id, now: int) {
    b.player == s && !b.lifted && (b.expires.None? || b.expires.value > now)
  }

  predicate HasActiveBan(bans: seq<Ban>, s: Id, now: int) {
    exists b | b in bans :: ActiveBan(b, s, now)
  }

  /** `dismissed` is a "Not them" on the fingerprint alert. */
  function Refused(d: Desk, s: Id, other: Id, source: Source, dismissed: bool): Option<Refusal> {
    if ClearedBefore(d.holds, s, other, source) || (source.Fingerprint? && dismissed) then Some(WasCleared)
    else if Held(d.holds, s) then Some(OpenHold)
    else if s !in d.players then Some(Unknown)
    else if s in d.staff then Some(Staff)
    else None
  }

  /** A ban row of its own kind, and the hold that owns it. */
  function Placed(d: Desk, s: Id, other: Id, source: Source, dismissed: bool): Desk {
    if Refused(d, s, other, source, dismissed).Some? then d
    else d.(bans := d.bans + [Ban(s, true, false, None)], holds := d.holds + [Hold(s, other, |d.bans|, source, None)])
  }

  function Lifted(bans: seq<Ban>, i: nat): seq<Ban> {
    if i < |bans| then bans[i := bans[i].(lifted := true)] else bans
  }

  function Closed(d: Desk, h: nat, resolution: Resolution): Desk {
    if h < |d.holds| && IsOpen(d.holds[h]) then
      d.(holds := d.holds[h := d.holds[h].(resolution := Some(resolution))], bans := Lifted(d.bans, d.holds[h].ban))
    else d
  }

  function BannedFromHold(d: Desk, h: nat): Desk {
    if h < |d.holds| && IsOpen(d.holds[h]) then
      Closed(d.(bans := d.bans + [Ban(d.holds[h].steamid, false, false, None)]), h, Banned)
    else d
  }

  predicate AnsweredByMerge(h: Hold, from: Id, into: Id) {
    IsOpen(h) && (h.steamid == from || (h.steamid == into && h.other == from))
  }

  function ClosedForMerge(d: Desk, from: Id, into: Id, upTo: nat): Desk
    requires upTo <= |d.holds|
  {
    if upTo == 0 then d
    else
      var before := ClosedForMerge(d, from, into, upTo - 1);
      if AnsweredByMerge(d.holds[upTo - 1], from, into) then Closed(before, upTo - 1, Merged) else before
  }

  /** `UPDATE bans SET player_id`. */
  function Moved(bans: seq<Ban>, from: Id, into: Id): (r: seq<Ban>)
    ensures |r| == |bans|
    ensures forall i | 0 <= i < |r| :: r[i] == if bans[i].player == from then bans[i].(player := into) else bans[i]
  {
    seq(|bans|, i requires 0 <= i < |bans| => if bans[i].player == from then bans[i].(player := into) else bans[i])
  }

  /** The holds a merge answers are closed, and then the bans move and the account goes. */
  function MergedInto(d: Desk, from: Id, into: Id): Desk {
    var closed := ClosedForMerge(d, from, into, |d.holds|);
    closed.(bans := Moved(closed.bans, from, into), players := closed.players - {from})
  }

  // ---------- the code ----------

  class HoldDesk {
    var holds: seq<Hold>
    var bans: seq<Ban>
    var players: set<Id>
    var staff: set<Id>

    ghost function Read(): Desk
      reads this
    {
      Desk(holds, bans, players, staff)
    }

    method InsertBan(ban: Ban) returns (id: nat)
      modifies this`bans
      ensures id == |old(bans)| && bans == old(bans) + [ban]
    {
      id := |bans|;
      bans := bans + [ban];
    }

    /** placeAltHold for a Discord move, placeFingerprintHold for a fingerprint. */
    method Place(s: Id, other: Id, source: Source, dismissed: bool) returns (refused: Option<Refusal>)
      modifies this`holds, this`bans
      ensures refused == Refused(old(Read()), s, other, source, dismissed)
      ensures Read() == Placed(old(Read()), s, other, source, dismissed)
    {
      if ClearedBefore(holds, s, other, source) || (source.Fingerprint? && dismissed) { return Some(WasCleared); }
      if Held(holds, s) { return Some(OpenHold); }
      if s !in players { return Some(Unknown); }
      if s in staff { return Some(Staff); }
      var ban := InsertBan(Ban(s, true, false, None));
      holds := holds + [Hold(s, other, ban, source, None)];
      refused := None;
    }

    method CloseHold(h: nat, resolution: Resolution, now: int) returns (freed: bool)
      modifies this`holds, this`bans
      ensures Read() == Closed(old(Read()), h, resolution)
      ensures freed <==> h < |old(holds)| && IsOpen(old(holds)[h]) && !HasActiveBan(bans, old(holds)[h].steamid, now)
    {
      if h >= |holds| || !IsOpen(holds[h]) { return false; }
      var hold := holds[h];
      holds := holds[h := hold.(resolution := Some(resolution))];
      if hold.ban < |bans| && !bans[hold.ban].lifted { bans := bans[hold.ban := bans[hold.ban].(lifted := true)]; }
      freed := !HasActiveBan(bans, hold.steamid, now);
    }

    method LiftAltHold(h: nat, now: int) returns (ok: bool)
      modifies this`holds, this`bans
      ensures Read() == Closed(old(Read()), h, Cleared)
      ensures ok <==> h < |old(holds)| && IsOpen(old(holds)[h])
    {
      if h >= |holds| || !IsOpen(holds[h]) { return false; }
      var _ := CloseHold(h, Cleared, now);
      ok := true;
    }

    method BanFromHold(h: nat, now: int) returns (ok: bool)
      modifies this`holds, this`bans
      ensures Read() == BannedFromHold(old(Read()), h)
      ensures ok <==> h < |old(holds)| && IsOpen(old(holds)[h])
    {
      if h >= |holds| || !IsOpen(holds[h]) { return false; }
      var _ := InsertBan(Ban(holds[h].steamid, false, false, None));
      var _ := CloseHold(h, Banned, now);
      ok := true;
    }

    /** The rows are read first, and closed in turn. */
    method CloseHoldsForMerge(from: Id, into: Id, now: int)
      modifies this`holds, this`bans
      ensures Read() == ClosedForMerge(old(Read()), from, into, |old(holds)|)
    {
      var before := holds;
      for i := 0 to |before|
        invariant Read() == ClosedForMerge(old(Read()), from, into, i)
      {
        if AnsweredByMerge(before[i], from, into) { var _ := CloseHold(i, Merged, now); }
      }
    }

    /** The steps of mergePlayers that holds and bans see. */
    method MergePlayers(from: Id, into: Id, now: int)
      modifies this
      ensures Read() == MergedInto(old(Read()), from, into)
    {
      CloseHoldsForMerge(from, into, now);
      bans := Moved(bans, from, into);
      players := players - {from};
    }
  }

  // ---------- what every run keeps ----------

  datatype Op =
    | Place(s: Id, other: Id, source: Source, dismissed: bool)
    | Close(h: nat)
    | BanHeld(h: nat)
    | MergeInto(from: Id, into: Id)
    /** Any other ban, or the end of any ban by hand. */
    | BanElse(ban: Ban)
    | UnbanElse(i: nat)
    | People(players: set<Id>, staff: set<Id>)

  function Step(d: Desk, op: Op): Desk {
    match op
    case Place(s, other, source, dismissed) => Placed(d, s, other, source, dismissed)
    case Close(h) => Closed(d, h, Cleared)
    case BanHeld(h) => BannedFromHold(d, h)
    case MergeInto(from, into) => MergedInto(d, from, into)
    case BanElse(ban) => if ban.isHold then d else d.(bans := d.bans + [ban])
    case UnbanElse(i) => d.(bans := Lifted(d.bans, i))
    case People(players, staff) => d.(players := players, staff := staff)
  }

  ghost predicate OneOpenEach(holds: seq<Hold>) {
    forall i, j | 0 <= i < j < |holds| && IsOpen(holds[i]) && IsOpen(holds[j]) :: holds[i].steamid != holds[j].steamid
  }

  /**
   Each hold owns one ban of its kind, on its account while it is open and lifted when it is not; no two own the
   same.
   */
  ghost predicate OwnBans(holds: seq<Hold>, bans: seq<Ban>) {
    && (forall i | 0 <= i < |holds| :: OwnBan(holds[i], bans))
    && (forall i, j | 0 <= i < j < |holds| :: holds[i].ban != holds[j].ban)
  }

  ghost predicate OwnBan(h: Hold, bans: seq<Ban>) {
    && h.ban < |bans| && bans[h.ban].isHold
    && if IsOpen(h) then bans[h.ban].player == h.steamid else bans[h.ban].lifted
  }

  /** No ban of that kind is without its hold. */
  ghost predicate NoStrayBans(holds: seq<Hold>, bans: seq<Ban>) {
    forall b | 0 <= b < |bans| && bans[b].isHold :: Owned(holds, b)
  }

  ghost predicate Owned(holds: seq<Hold>, b: nat) {
    exists i :: 0 <= i < |holds| && holds[i].ban == b
  }

  /** No open hold is about a pair staff have cleared. */
  ghost predicate ClearedStayFree(holds: seq<Hold>) {
    forall i, j | 0 <= i < |holds| && 0 <= j < |holds| && IsOpen(holds[i]) && holds[j].resolution == Some(Cleared) ::
      !SamePair(holds[j], holds[i].steamid, holds[i].other, holds[i].source)
  }

  ghost predicate Kept(d: Desk) {
    OneOpenEach(d.holds) && OwnBans(d.holds, d.bans) && NoStrayBans(d.holds, d.bans) && ClearedStayFree(d.holds)
  }

  lemma StillOwned(holds: seq<Hold>, more: seq<Hold>)
    requires |holds| <= |more| && forall i | 0 <= i < |holds| :: more[i].ban == holds[i].ban
    ensures forall b :: Owned(holds, b) ==> Owned(more, b)
  {
    forall b | Owned(holds, b) ensures Owned(more, b) {
      var i :| 0 <= i < |holds| && holds[i].ban == b;
      assert more[i].ban == b;
    }
  }

  lemma CloseKeeps(d: Desk, h: nat, resolution: Resolution)
    requires Kept(d)
    ensures Kept(Closed(d, h, resolution)) && |Closed(d, h, resolution).holds| == |d.holds|
  {
    hide Owned;
    StillOwned(d.holds, Closed(d, h, resolution).holds);
  }

  lemma {:induction false} MergeKeeps(d: Desk, from: Id, into: Id, upTo: nat)
    requires Kept(d) && upTo <= |d.holds|
    ensures Kept(ClosedForMerge(d, from, into, upTo)) && |ClosedForMerge(d, from, into, upTo).holds| == |d.holds|
    decreases upTo
  {
    hide Kept, Closed;
    if upTo > 0 {
      MergeKeeps(d, from, into, upTo - 1);
      CloseKeeps(ClosedForMerge(d, from, into, upTo - 1), upTo - 1, Merged);
    }
  }

  /** Every open hold on the account is closed before its bans move. */
  lemma {:induction false} MergeCloses(d: Desk, from: Id, into: Id, upTo: nat)
    requires upTo <= |d.holds|
    ensures
      var holds := ClosedForMerge(d, from, into, upTo).holds;
      && |holds| == |d.holds| && (forall i | 0 <= i < |holds| :: holds[i].steamid == d.holds[i].steamid)
      && (forall i | 0 <= i < upTo :: IsOpen(holds[i]) ==> holds[i].steamid != from)
      && (forall i | upTo <= i < |holds| :: holds[i] == d.holds[i])
    decreases upTo
  {
    if upTo > 0 { MergeCloses(d, from, into, upTo - 1); }
  }

  lemma MovedKeeps(d: Desk, from: Id, into: Id)
    requires Kept(d) && forall i | 0 <= i < |d.holds| :: IsOpen(d.holds[i]) ==> d.holds[i].steamid != from
    ensures Kept(d.(bans := Moved(d.bans, from, into), players := d.players - {from}))
  {
  }

  lemma MergeStepKeeps(d: Desk, from: Id, into: Id)
    requires Kept(d)
    ensures Kept(MergedInto(d, from, into))
  {
    hide Kept, ClosedForMerge;
    MergeKeeps(d, from, into, |d.holds|);
    MergeCloses(d, from, into, |d.holds|);
    MovedKeeps(ClosedForMerge(d, from, into, |d.holds|), from, into);
  }

  lemma PlaceKeeps(d: Desk, s: Id, other: Id, source: Source, dismissed: bool)
    requires Kept(d)
    ensures Kept(Placed(d, s, other, source, dismissed))
  {
    if Refused(d, s, other, source, dismissed).None? {
      var r := Placed(d, s, other, source, dismissed);
      forall j | 0 <= j < |d.holds|
        ensures IsOpen(d.holds[j]) ==> d.holds[j].steamid != s
      {
        assert d.holds[j] in d.holds;
      }
      forall j | 0 <= j < |d.holds|
        ensures d.holds[j].resolution == Some(Cleared) ==> !SamePair(d.holds[j], s, other, source)
      {
        assert d.holds[j] in d.holds;
      }
      StillOwned(d.holds, r.holds);
      assert Owned(r.holds, |d.bans|) by { assert r.holds[|d.holds|].ban == |d.bans|; }
      hide Owned;
    }
  }

  lemma StepKeeps(d: Desk, op: Op)
    requires Kept(d)
    ensures Kept(Step(d, op))
  {
    match op
    case Place(s, other, source, dismissed) => PlaceKeeps(d, s, other, source, dismissed);
    case Close(h) => CloseKeeps(d, h, Cleared);
    case BanHeld(h) =>
      if h < |d.holds| { CloseKeeps(d.(bans := d.bans + [Ban(d.holds[h].steamid, false, false, None)]), h, Banned); }
    case MergeInto(from, into) => MergeStepKeeps(d, from, into);
    case _ =>
  }

  ghost function Run(d: Desk, ops: seq<Op>): Desk {
    if ops == [] then d else Step(Run(d, ops[..|ops| - 1]), ops[|ops| - 1])
  }

  /** Over every run: one open hold an account, each with a ban of its own, and none about a cleared pair. */
  lemma {:induction false} HoldsStaySound(ops: seq<Op>)
    ensures Kept(Run(Desk([], [], {}, {}), ops))
    decreases |ops|
  {
    if ops != [] {
      HoldsStaySound(ops[..|ops| - 1]);
      StepKeeps(Run(Desk([], [], {}, {}), ops[..|ops| - 1]), ops[|ops| - 1]);
    }
  }

  /**
   An account is kept out by a hold's ban only while a hold on that very account is open, whatever was merged
   into it.
   */
  lemma OnlyOpenHoldsKeepOut(ops: seq<Op>, b: nat, s: Id, now: int)
    requires
      var d := Run(Desk([], [], {}, {}), ops);
      b < |d.bans| && d.bans[b].isHold && ActiveBan(d.bans[b], s, now)
    ensures Held(Run(Desk([], [], {}, {}), ops).holds, s)
  {
    HoldsStaySound(ops);
    var d := Run(Desk([], [], {}, {}), ops);
    assert Owned(d.holds, b);
    var i :| 0 <= i < |d.holds| && d.holds[i].ban == b;
    assert OwnBan(d.holds[i], d.bans);
    assert d.holds[i] in d.holds;
  }

  /** Ending a hold never touches another ban: what else bans the account, or anyone, stays as it is. */
  lemma OnlyItsOwnBanEnds(d: Desk, h: nat, resolution: Resolution, i: nat, now: int)
    requires Kept(d) && h < |d.holds| && IsOpen(d.holds[h]) && i < |d.bans|
    ensures Closed(d, h, resolution).bans[i] == if i == d.holds[h].ban then d.bans[i].(lifted := true) else d.bans[i]
    ensures HasActiveBan(Closed(d, h, resolution).bans, d.holds[h].steamid, now) <==>
      exists j :: 0 <= j < |d.bans| && j != d.holds[h].ban && ActiveBan(d.bans[j], d.holds[h].steamid, now)
  {
    var after := Closed(d, h, resolution).bans;
    var s := d.holds[h].steamid;
    if HasActiveBan(after, s, now) {
      var b :| b in after && ActiveBan(b, s, now);
      var j :| 0 <= j < |after| && after[j] == b;
      assert ActiveBan(d.bans[j], s, now) && j != d.holds[h].ban;
    }
    if j :| 0 <= j < |d.bans| && j != d.holds[h].ban && ActiveBan(d.bans[j], s, now) {
      assert after[j] == d.bans[j] && after[j] in after;
    }
  }

  // ---------- what each call does to an account ----------

  /** Staff cleared this pair before, or said "Not them" to this fingerprint. */
  ghost predicate Answered(d: Desk, s: Id, other: Id, source: Source, dismissed: bool) {
    || (source.Fingerprint? && dismissed)
    || exists i :: && 0 <= i < |d.holds| && d.holds[i].resolution == Some(Cleared) && d.holds[i].steamid == s
                   && d.holds[i].source == source && (source == Discord ==> d.holds[i].other == other)
  }

  ghost predicate UnderHold(d: Desk, s: Id) {
    exists i :: 0 <= i < |d.holds| && d.holds[i].steamid == s && d.holds[i].resolution.None?
  }

  /** An account is held exactly when it exists, is no staff member's, has no open hold and was not answered for;
      it is banned from then on, with no end. */
  lemma PlacedIff(d: Desk, s: Id, other: Id, source: Source, dismissed: bool, now: int)
    ensures
      var after := Placed(d, s, other, source, dismissed);
      if s in d.players && s !in d.staff && !UnderHold(d, s) && !Answered(d, s, other, source, dismissed) then
        && after == d.(holds := after.holds, bans := after.bans)
        && after.holds == d.holds + [Hold(s, other, |d.bans|, source, None)]
        && after.bans == d.bans + [Ban(s, true, false, None)]
        && UnderHold(after, s) && HasActiveBan(after.bans, s, now)
      else after == d
  {
    assert Held(d.holds, s) <==> UnderHold(d, s) by {
      if UnderHold(d, s) {
        var i :| 0 <= i < |d.holds| && d.holds[i].steamid == s && d.holds[i].resolution.None?;
        assert d.holds[i] in d.holds;
      }
    }
    assert ClearedBefore(d.holds, s, other, source) || (source.Fingerprint? && dismissed)
      <==> Answered(d, s, other, source, dismissed) by {
      AnsweredIs(d, s, other, source, dismissed);
    }
    var after := Placed(d, s, other, source, dismissed);
    if Refused(d, s, other, source, dismissed).None? {
      assert after.holds[|d.holds|] == Hold(s, other, |d.bans|, source, None);
      assert after.bans[|d.bans|] in after.bans;
    }
  }

  lemma AnsweredIs(d: Desk, s: Id, other: Id, source: Source, dismissed: bool)
    ensures ClearedBefore(d.holds, s, other, source) || (source.Fingerprint? && dismissed)
       <==> Answered(d, s, other, source, dismissed)
  {
    if i :| 0 <= i < |d.holds| && d.holds[i].resolution == Some(Cleared) && d.holds[i].steamid == s
            && d.holds[i].source == source && (source == Discord ==> d.holds[i].other == other)
    {
      assert d.holds[i] in d.holds;
    }
  }

  /** An account banned from its hold is under no hold any more and has an active ban of the ordinary kind, with no
      end; nobody else's bans change. */
  lemma BannedForGood(d: Desk, h: nat, now: int)
    requires Kept(d) && h < |d.holds| && d.holds[h].resolution.None?
    ensures
      var s, after := d.holds[h].steamid, BannedFromHold(d, h);
      && !UnderHold(after, s)
      && after.holds == d.holds[h := d.holds[h].(resolution := Some(Banned))]
      && |after.bans| == |d.bans| + 1 && after.bans[|d.bans|] == Ban(s, false, false, None)
      && ActiveBan(after.bans[|d.bans|], s, now) && HasActiveBan(after.bans, s, now)
      && (forall i | 0 <= i < |d.bans| ::
            after.bans[i] == if i == d.holds[h].ban then d.bans[i].(lifted := true) else d.bans[i])
  {
    var s, after := d.holds[h].steamid, BannedFromHold(d, h);
    assert after.bans[|d.bans|] in after.bans;
  }

  /** A merge closes the account's own open hold and the survivor's open hold over this very account; no other. */
  lemma MergeClosesExactly(d: Desk, from: Id, into: Id, i: nat)
    requires i < |d.holds|
    ensures
      var h, after := d.holds[i], MergedInto(d, from, into);
      && |after.holds| == |d.holds|
      && after.holds[i] ==
         if h.resolution.None? && (h.steamid == from || (h.steamid == into && h.other == from))
         then h.(resolution := Some(Merged)) else h
  {
    MergeHolds(d, from, into, |d.holds|, i);
  }

  lemma {:induction false} MergeHolds(d: Desk, from: Id, into: Id, upTo: nat, i: nat)
    requires upTo <= |d.holds| && i < |d.holds|
    ensures
      var after := ClosedForMerge(d, from, into, upTo).holds;
      && |after| == |d.holds|
      && after[i] == if i < upTo && AnsweredByMerge(d.holds[i], from, into)
                     then d.holds[i].(resolution := Some(Merged)) else d.holds[i]
    decreases upTo
  {
    if upTo > 0 {
      MergeHolds(d, from, into, upTo - 1, i);
      MergeHolds(d, from, into, upTo - 1, upTo - 1);
    }
  }

  /** No ban of the two accounts is lost in a merge: what the account was banned for otherwise bans the survivor. */
  lemma MergeMovesBans(d: Desk, from: Id, into: Id, b: nat)
    requires Kept(d) && b < |d.bans|
    ensures
      var after := MergedInto(d, from, into);
      && |after.bans| == |d.bans| && from !in after.players
      && after.bans[b].player == (if d.bans[b].player == from then into else d.bans[b].player)
      && after.bans[b].isHold == d.bans[b].isHold && after.bans[b].expires == d.bans[b].expires
      && (!d.bans[b].isHold ==> after.bans[b].lifted == d.bans[b].lifted)
  {
    MergeBans(d, from, into, |d.holds|, b);
  }

  lemma {:induction false} MergeBans(d: Desk, from: Id, into: Id, upTo: nat, b: nat)
    requires Kept(d) && upTo <= |d.holds| && b < |d.bans|
    ensures
      var after := ClosedForMerge(d, from, into, upTo);
      && |after.bans| == |d.bans| && |after.holds| == |d.holds|
      && (forall i | 0 <= i < |d.holds| :: after.holds[i].ban == d.holds[i].ban)
      && after.bans[b] == d.bans[b].(lifted := after.bans[b].lifted)
      && (!d.bans[b].isHold ==> after.bans[b] == d.bans[b])
    decreases upTo
  {
    if upTo > 0 {
      MergeBans(d, from, into, upTo - 1, b);
      assert OwnBan(d.holds[upTo - 1], d.bans);
    }
  }
}
