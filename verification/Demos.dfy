/**
 The rows that link demos to matches: how files enter them (src/demos.ts) and how pruning takes them out
 (src/demoPrune.ts).
 */
module Demos {
  import opened Wrappers
  import opened Seqs
  import opened Sets

  /** `pug_<token>_<ordinal>_<map>.dem`: the name tells the match and the map's ordinal. */
  datatype Name = Name(matchId: int, ordinal: nat, map_: string)

  datatype Slot = Slot(matchId: int, ordinal: nat)

  /** demoKey: `demos/<match>/<filename>`. */
  datatype Key = Key(name: Name)

  datatype Row = Row(filename: Name, bytes: nat, key: Option<Key>)

  datatype Found = Found(name: Name, bytes: nat)

  type Rows = map<Slot, Row>

  function SlotOf(name: Name): Slot {
    Slot(name.matchId, name.ordinal)
  }

  // ---------- recordMatchDemos ----------

  /** The first of the largest files of each ordinal. */
  function Larger(best: map<nat, Found>, d: Found): map<nat, Found> {
    if d.name.ordinal in best && d.bytes <= best[d.name.ordinal].bytes then best else best[d.name.ordinal := d]
  }

  function Best(found: seq<Found>): map<nat, Found> {
    if found == [] then map[] else Larger(Best(found[..|found| - 1]), found[|found| - 1])
  }

  /** The upsert: the same file keeps its key, another one replaces it only when larger, and then without its key. */
  function Upserted(row: Option<Row>, d: Found): Row {
    match row
    case None => Row(d.name, d.bytes, None)
    case Some(r) =>
      if r.filename == d.name then Row(d.name, d.bytes, r.key)
      else if d.bytes > r.bytes then Row(d.name, d.bytes, None)
      else r
  }

  function RowAt(rows: Rows, slot: Slot): Option<Row> {
    if slot in rows then Some(rows[slot]) else None
  }

  /** Every ordinal found has its row upserted from its largest file; no other row changes. */
  function Recorded(rows: Rows, matchId: int, best: map<nat, Found>): Rows {
    map slot | slot in rows.Keys + set o | o in best :: Slot(matchId, o) ::
      if slot.matchId == matchId && slot.ordinal in best then Upserted(RowAt(rows, slot), best[slot.ordinal])
      else rows[slot]
  }

  /** Files past their age: rows that have no key go with them. */
  function Unlinked(rows: Rows, name: Name): Rows {
    map slot | slot in rows && !(rows[slot].filename == name && rows[slot].key.None?) :: rows[slot]
  }

  method UpsertAll(rows: Rows, matchId: int, best: map<nat, Found>) returns (out: Rows)
    ensures out == Recorded(rows, matchId, best)
  {
    out := rows;
    var left := best.Keys;
    while left != {}
      invariant left <= best.Keys
      invariant forall slot ::
        slot in out <==> slot in rows || (slot.matchId == matchId && slot.ordinal in best.Keys - left)
      invariant forall slot | slot in out ::
        out[slot] == if slot.matchId == matchId && slot.ordinal in best.Keys - left
                     then Upserted(RowAt(rows, slot), best[slot.ordinal]) else rows[slot]
      decreases left
    {
      var o := Pick(left);
      out := out[Slot(matchId, o) := Upserted(RowAt(out, Slot(matchId, o)), best[o])];
      left := left - {o};
    }
  }

  class DemoRows {
    var rows: Rows

    method RecordMatchDemos(matchId: int, found: seq<Found>) returns (n: nat)
      requires forall d | d in found :: d.name.matchId == matchId
      modifies this
      ensures rows == Recorded(old(rows), matchId, Best(found))
      ensures n == |Best(found)|
    {
      var best: map<nat, Found> := map[];
      for i := 0 to |found|
        invariant best == Best(found[..i])
      {
        assert found[..i + 1][..i] == found[..i];
        var d := found[i];
        if d.name.ordinal !in best || d.bytes > best[d.name.ordinal].bytes { best := best[d.name.ordinal := d]; }
      }
      assert found[..|found|] == found;
      n := |best|;
      rows := UpsertAll(rows, matchId, best);
    }

    /** `aged` are the match demos past their retention; `gone` those that could be unlinked. */
    method PruneDemos(aged: seq<Name>, unlinks: Name -> bool) returns (gone: seq<Name>)
      modifies this
      ensures forall name :: name in gone <==> name in aged && unlinks(name)
      ensures forall slot ::
        slot in rows <==> slot in old(rows) && (old(rows)[slot].key.Some? || old(rows)[slot].filename !in gone)
      ensures forall slot | slot in rows :: rows[slot] == old(rows)[slot]
    {
      gone := [];
      for i := 0 to |aged|
        invariant forall name :: name in gone <==> name in aged[..i] && unlinks(name)
        invariant forall slot ::
          slot in rows <==> slot in old(rows) && (old(rows)[slot].key.Some? || old(rows)[slot].filename !in gone)
        invariant forall slot | slot in rows :: rows[slot] == old(rows)[slot]
      {
        TakeOneMore(aged, i);
        if !unlinks(aged[i]) { continue; }
        gone := gone + [aged[i]];
        rows := Unlinked(rows, aged[i]);
      }
      assert aged[..|aged|] == aged;
    }
  }

  /** Each row holds the largest file ever found for it when files are recorded as they are. */
  lemma {:induction false} BestIsLargest(found: seq<Found>, d: Found)
    requires d in found
    ensures d.name.ordinal in Best(found) && d.bytes <= Best(found)[d.name.ordinal].bytes
    ensures Best(found)[d.name.ordinal] in found && Best(found)[d.name.ordinal].name.ordinal == d.name.ordinal
    decreases |found|
  {
    var rest, last := found[..|found| - 1], found[|found| - 1];
    assert found == rest + [last];
    BestIsOfFound(rest, d.name.ordinal);
    if d in rest { BestIsLargest(rest, d); }
  }

  lemma {:induction false} BestIsOfFound(found: seq<Found>, o: nat)
    ensures o in Best(found) ==> Best(found)[o] in found && Best(found)[o].name.ordinal == o
    decreases |found|
  {
    if found != [] {
      BestIsOfFound(found[..|found| - 1], o);
      assert found == found[..|found| - 1] + [found[|found| - 1]];
    }
  }

  /** A row's key always belongs to the file the row names, as far as recording and pruning go. */
  ghost predicate KeysBelong(rows: Rows) {
    forall slot | slot in rows && rows[slot].key.Some? :: rows[slot].key.value == Key(rows[slot].filename)
  }

  lemma RecordingKeepsKeys(rows: Rows, matchId: int, best: map<nat, Found>)
    requires KeysBelong(rows)
    ensures KeysBelong(Recorded(rows, matchId, best))
  {
  }
}
