/** Second accounts pointed at one (src/aliases.ts), and the merge that re-points them (src/mergePlayers.ts). */
module Aliases {
  import opened Wrappers

  type Id = string

  /** `player_aliases`: an alias and the account it is of. */
  type Rows = map<Id, Id>

  datatype AliasError = OfItself | CanonicalIsAlias | IsCanonical

  /** No alias points at an alias. */
  ghost predicate OneHop(rows: Rows) {
    forall id | id in rows :: rows[id] !in rows
  }

  function Resolve(rows: Rows, id: Id): Id {
    if id in rows then rows[id] else id
  }

  function Added(rows: Rows, id: Id, canonical: Id): Result<Rows, AliasError> {
    if id == canonical then Err(OfItself)
    else if canonical in rows then Err(CanonicalIsAlias)
    else if id in rows.Values then Err(IsCanonical)
    else Ok(rows[id := canonical])
  }

  function Repointed(rows: Rows, from: Id, into: Id): Rows {
    map id | id in rows :: if rows[id] == from then into else rows[id]
  }

  /** The merge's last steps, in its transaction: a refused alias undoes them. */
  function Merged(rows: Rows, from: Id, into: Id): Result<Rows, AliasError> {
    Added(Repointed(rows, from, into), from, into)
  }

  class PlayerAliases {
    var rows: Rows

    method AddAlias(id: Id, canonical: Id) returns (r: Result<(), AliasError>)
      modifies this
      ensures var added := Added(old(rows), id, canonical);
        if added.Ok? then r.Ok? && rows == added.value else r == Err(added.error) && rows == old(rows)
    {
      if id == canonical { return Err(OfItself); }
      if canonical in rows { return Err(CanonicalIsAlias); }
      if id in rows.Values { return Err(IsCanonical); }
      rows := rows[id := canonical];
      r := Ok(());
    }

    method RemoveAlias(id: Id)
      modifies this
      ensures rows == old(rows) - {id}
    {
      rows := rows - {id};
    }

    method MergeInto(from: Id, into: Id) returns (r: Result<(), AliasError>)
      modifies this
      ensures var merged := Merged(old(rows), from, into);
        if merged.Ok? then r.Ok? && rows == merged.value else r == Err(merged.error) && rows == old(rows)
    {
      var before := rows;
      rows := Repointed(rows, from, into);
      r := AddAlias(from, into);
      if r.Err? { rows := before; }
    }
  }

  // ---------- one hop, over every run ----------

  /** An alias is refused exactly when it would make a second hop. */
  lemma RefusedIffSecondHop(rows: Rows, id: Id, canonical: Id)
    requires OneHop(rows)
    ensures Added(rows, id, canonical).Ok? <==> OneHop(rows[id := canonical])
  {
    var after := rows[id := canonical];
    if id in rows.Values {
      var other :| other in rows && rows[other] == id;
      assert other != id;
      assert after[other] in after;
    }
    if canonical in rows || id == canonical { assert after[id] in after; }
  }

  /** A merge is refused exactly when the surviving account is itself an alias, or is the one merged. */
  lemma MergeRefusedIffIntoIsAlias(rows: Rows, from: Id, into: Id)
    requires OneHop(rows)
    ensures Merged(rows, from, into).Ok? <==> from != into && into !in rows
    ensures Merged(rows, from, into).Ok? ==> OneHop(Merged(rows, from, into).value)
    ensures Merged(rows, from, into).Ok? ==>
      forall id ::
        Resolve(Merged(rows, from, into).value, id) ==
          if Resolve(rows, id) == from || id == from then into else Resolve(rows, id)
  {
    var repointed := Repointed(rows, from, into);
    assert from != into ==> from !in repointed.Values;
  }

  datatype Op = Add(id: Id, canonical: Id) | Remove(id: Id) | Merge(from: Id, into: Id)

  function Step(rows: Rows, op: Op): Rows {
    match op
    case Add(id, canonical) => (match Added(rows, id, canonical) case Ok(after) => after case Err(_) => rows)
    case Remove(id) => rows - {id}
    case Merge(from, into) => (match Merged(rows, from, into) case Ok(after) => after case Err(_) => rows)
  }

  ghost function Run(rows: Rows, ops: seq<Op>): Rows {
    if ops == [] then rows else Step(Run(rows, ops[..|ops| - 1]), ops[|ops| - 1])
  }

  lemma StepKeepsOneHop(rows: Rows, op: Op)
    requires OneHop(rows)
    ensures OneHop(Step(rows, op))
  {
    match op
    case Add(id, canonical) => RefusedIffSecondHop(rows, id, canonical);
    case Remove(_) =>
    case Merge(from, into) => MergeRefusedIffIntoIsAlias(rows, from, into);
  }

  lemma {:induction false} AliasesStayOneHop(rows: Rows, ops: seq<Op>)
    requires OneHop(rows)
    ensures OneHop(Run(rows, ops))
    ensures forall id :: Resolve(Run(rows, ops), Resolve(Run(rows, ops), id)) == Resolve(Run(rows, ops), id)
    decreases |ops|
  {
    if ops != [] {
      AliasesStayOneHop(rows, ops[..|ops| - 1]);
      StepKeepsOneHop(Run(rows, ops[..|ops| - 1]), ops[|ops| - 1]);
    }
  }

  // ---------- canonicalise ----------

  /** The string fields of a log event. */
  datatype Event = Event(kind: string, fields: map<string, string>)

  const STEAMID_KINDS := {
    "leave", "return", "abandon", "player", "match_roster", "live_stat", "chat", "signon_drop", "entered", "player_net",
    "lilac_flag", "spray_exploit", "cvar_flag", "say", "staff_in", "name", "input_burst", "input_cap", "input_stall",
    "si_kill", "round_stat"
  }

  function IdFields(kind: string): seq<string> {
    if kind == "live_event" then ["actor", "target"] else if kind in STEAMID_KINDS then ["steamid"] else []
  }

  /** A field that holds a SteamID, and some id. */
  predicate HoldsId(ev: Event, field: string) {
    field in IdFields(ev.kind) && field in ev.fields && ev.fields[field] != ""
  }

  ghost predicate IsCanonicalEvent(rows: Rows, ev: Event, out: Event) {
    && out.kind == ev.kind && out.fields.Keys == ev.fields.Keys
    && forall f | f in ev.fields ::
         out.fields[f] == if HoldsId(ev, f) then Resolve(rows, ev.fields[f]) else ev.fields[f]
  }

  method Canonicalise(rows: Rows, ev: Event) returns (out: Event)
    ensures IsCanonicalEvent(rows, ev, out)
  {
    out := ev;
    var fields := IdFields(ev.kind);
    for i := 0 to |fields|
      invariant out.kind == ev.kind && out.fields.Keys == ev.fields.Keys
      invariant forall f | f in ev.fields ::
        out.fields[f] == if HoldsId(ev, f) && f in fields[..i] then Resolve(rows, ev.fields[f]) else ev.fields[f]
    {
      var f := fields[i];
      assert fields[..i + 1] == fields[..i] + [f];
      if f !in ev.fields || ev.fields[f] == "" { continue; }
      var canonical := Resolve(rows, ev.fields[f]);
      if canonical == ev.fields[f] { continue; }
      out := out.(fields := out.fields[f := canonical]);
    }
    assert fields[..|fields|] == fields;
  }

  /** Past the door every id is a real account, and going through it again changes nothing. */
  lemma NoAliasPastTheDoor(rows: Rows, ev: Event, out: Event, again: Event)
    requires OneHop(rows) && IsCanonicalEvent(rows, ev, out) && IsCanonicalEvent(rows, out, again)
    ensures forall f | HoldsId(ev, f) :: out.fields[f] !in rows
    ensures again == out
  {
    assert again.fields == out.fields;
  }
}
