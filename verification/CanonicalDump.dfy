/** The rewrite of a dump to canonical accounts (canonicaliseDump in src/aliases.ts). */
module CanonicalDump {
  import opened Wrappers
  import opened Sets
  import opened Seqs
  import opened Aliases
  import opened DumpParse

  // ---------- two records of one person ----------

  type Stats = map<string, int>

  function StatOf(stats: Stats, key: string): int {
    if key in stats then stats[key] else 0
  }

  /** Every counter added up; the earlier start and the first team stay. */
  function Both(seen: Player, p: Player): Player {
    Player(seen.steamid, seen.team, if p.joinedMap < seen.joinedMap then p.joinedMap else seen.joinedMap,
           seen.sidmg + p.sidmg, seen.sikill + p.sikill, seen.ck + p.ck, seen.ff + p.ff, seen.rev + p.rev)
  }

  function AddedStats(seen: Stats, more: Stats): Stats {
    map key | key in seen.Keys + more.Keys :: StatOf(seen, key) + StatOf(more, key)
  }

  function PlayerAt(players: seq<Player>, id: Id): (r: Option<nat>)
    ensures r.Some? ==> r.value < |players| && players[r.value].steamid == id
    ensures r.None? ==> forall p | p in players :: p.steamid != id
  {
    if players == [] then None
    else if players[|players| - 1].steamid == id then Some(|players| - 1)
    else PlayerAt(players[..|players| - 1], id)
  }

  function SkillAt(skills: seq<Skill>, id: Id): (r: Option<nat>)
    ensures r.Some? ==> r.value < |skills| && skills[r.value].steamid == id
    ensures r.None? ==> forall s | s in skills :: s.steamid != id
  {
    if skills == [] then None
    else if skills[|skills| - 1].steamid == id then Some(|skills| - 1)
    else SkillAt(skills[..|skills| - 1], id)
  }

  // ---------- the folds ----------

  function WithPlayer(out: seq<Player>, p: Player, id: Id): seq<Player> {
    var at := PlayerAt(out, id);
    if at.Some? then out[at.value := Both(out[at.value], p)] else out + [p.(steamid := id)]
  }

  function WithSkill(out: seq<Skill>, s: Skill, id: Id): seq<Skill> {
    var at := SkillAt(out, id);
    if at.Some? then out[at.value := Skill(id, AddedStats(out[at.value].stats, s.stats))]
    else out + [Skill(id, s.stats)]
  }

  function Players(rows: Rows, players: seq<Player>): seq<Player> {
    if players == [] then []
    else
      var p := players[|players| - 1];
      WithPlayer(Players(rows, players[..|players| - 1]), p, Resolve(rows, p.steamid))
  }

  function Skills(rows: Rows, skills: seq<Skill>): seq<Skill> {
    if skills == [] then []
    else
      var s := skills[|skills| - 1];
      WithSkill(Skills(rows, skills[..|skills| - 1]), s, Resolve(rows, s.steamid))
  }

  function Abandoners(rows: Rows, ids: seq<Id>): seq<Id> {
    if ids == [] then []
    else
      var rest, id := Abandoners(rows, ids[..|ids| - 1]), Resolve(rows, ids[|ids| - 1]);
      if id in rest then rest else rest + [id]
  }

  function Canonical(rows: Rows, d: Dump): Dump {
    d.(parts := Parts(d.parts.maps, Players(rows, d.parts.players), Skills(rows, d.parts.skills),
                     Abandoners(rows, d.parts.abandoners)))
  }

  method CanonicaliseDump(rows: Rows, d: Dump) returns (r: Dump)
    ensures r == Canonical(rows, d)
  {
    var players := FoldPlayers(rows, d.parts.players);
    var skills := FoldSkills(rows, d.parts.skills);
    var abandoners := FoldAbandoners(rows, d.parts.abandoners);
    r := d.(parts := Parts(d.parts.maps, players, skills, abandoners));
  }

  method FoldAbandoners(rows: Rows, ids: seq<Id>) returns (abandoners: seq<Id>)
    ensures abandoners == Abandoners(rows, ids)
  {
    abandoners := [];
    for i := 0 to |ids|
      invariant abandoners == Abandoners(rows, ids[..i])
    {
      assert ids[..i + 1][..i] == ids[..i];
      var id := Resolve(rows, ids[i]);
      if id !in abandoners { abandoners := abandoners + [id]; }
    }
    assert ids[..|ids|] == ids;
  }

  method FoldPlayers(rows: Rows, players: seq<Player>) returns (out: seq<Player>)
    ensures out == Players(rows, players)
  {
    out := [];
    for i := 0 to |players|
      invariant out == Players(rows, players[..i])
    {
      assert players[..i + 1][..i] == players[..i];
      var p := players[i];
      var id := Resolve(rows, p.steamid);
      var at := PlayerAt(out, id);
      if at.None? {
        out := out + [p.(steamid := id)];
        continue;
      }
      var seen := out[at.value];
      out := out[at.value := Both(seen, p)];
    }
    assert players[..|players|] == players;
  }

  method FoldSkills(rows: Rows, skills: seq<Skill>) returns (out: seq<Skill>)
    ensures out == Skills(rows, skills)
  {
    out := [];
    for i := 0 to |skills|
      invariant out == Skills(rows, skills[..i])
    {
      assert skills[..i + 1][..i] == skills[..i];
      var s := skills[i];
      var id := Resolve(rows, s.steamid);
      var at := SkillAt(out, id);
      if at.None? {
        out := out + [Skill(id, s.stats)];
        continue;
      }
      var stats := AddStats(out[at.value].stats, s.stats);
      out := out[at.value := Skill(id, stats)];
    }
    assert skills[..|skills|] == skills;
  }

  method AddStats(seen: Stats, more: Stats) returns (out: Stats)
    ensures out == AddedStats(seen, more)
  {
    out := seen;
    var left := more.Keys;
    while left != {}
      invariant left <= more.Keys
      invariant out.Keys == seen.Keys + (more.Keys - left)
      invariant forall key | key in out ::
        out[key] == if key in left then StatOf(seen, key) else StatOf(seen, key) + StatOf(more, key)
      decreases left
    {
      var key := Pick(left);
      out := out[key := StatOf(out, key) + more[key]];
      left := left - {key};
    }
  }

  // ---------- what is conserved ----------

  /** The counters of one STAT line. */
  datatype Counters = Counters(sidmg: int, sikill: int, ck: int, ff: int, rev: int) {
    function Plus(o: Counters): Counters {
      Counters(sidmg + o.sidmg, sikill + o.sikill, ck + o.ck, ff + o.ff, rev + o.rev)
    }
  }

  function CountersOf(p: Player): Counters {
    Counters(p.sidmg, p.sikill, p.ck, p.ff, p.rev)
  }

  /** What one person did, over every account of theirs. */
  ghost function DoneBy(rows: Rows, players: seq<Player>, id: Id): Counters {
    if players == [] then Counters(0, 0, 0, 0, 0)
    else
      var rest, p := DoneBy(rows, players[..|players| - 1], id), players[|players| - 1];
      if Resolve(rows, p.steamid) == id then rest.Plus(CountersOf(p)) else rest
  }

  /** A stat of one person over every account: absent where none of them measured it. */
  ghost function MeasuredFor(rows: Rows, skills: seq<Skill>, id: Id, key: string): Option<int> {
    if skills == [] then None
    else
      var rest, s := MeasuredFor(rows, skills[..|skills| - 1], id, key), skills[|skills| - 1];
      if Resolve(rows, s.steamid) == id && key in s.stats then Some(rest.GetOr(0) + s.stats[key]) else rest
  }

  ghost predicate Played(rows: Rows, players: seq<Player>, id: Id) {
    exists p :: p in players && Resolve(rows, p.steamid) == id
  }

  ghost predicate DistinctPlayers(players: seq<Player>) {
    forall i, j | 0 <= i < j < |players| :: players[i].steamid != players[j].steamid
  }

  ghost predicate DistinctSkills(skills: seq<Skill>) {
    forall i, j | 0 <= i < j < |skills| :: skills[i].steamid != skills[j].steamid
  }

  lemma WithPlayerKeepsDistinct(out: seq<Player>, p: Player, id: Id)
    requires DistinctPlayers(out)
    ensures DistinctPlayers(WithPlayer(out, p, id))
    ensures forall q | q in WithPlayer(out, p, id) :: q.steamid == id || q in out
    ensures forall q | q in out && q.steamid != id :: q in WithPlayer(out, p, id)
    ensures exists q :: q in WithPlayer(out, p, id) && q.steamid == id
  {
    var at := PlayerAt(out, id);
    var after := WithPlayer(out, p, id);
    if at.Some? {
      assert after[at.value] in after;
      forall q | q in out && q.steamid != id ensures q in after {
        var i :| 0 <= i < |out| && out[i] == q;
        assert after[i] == q;
      }
    } else {
      assert after[|out|] in after;
      forall i | 0 <= i < |out| ensures after[i].steamid != id { assert out[i] in out; }
    }
  }

  /** One line a person, holding all they did on every account of theirs. */
  lemma {:induction false} CountersAreConserved(rows: Rows, players: seq<Player>, id: Id)
    ensures DistinctPlayers(Players(rows, players))
    ensures (exists p :: p in Players(rows, players) && p.steamid == id) <==> Played(rows, players, id)
    ensures forall p | p in Players(rows, players) && p.steamid == id :: CountersOf(p) == DoneBy(rows, players, id)
    decreases |players|
  {
    if players != [] {
      var m := |players| - 1;
      CountersAreConserved(rows, players[..m], id);
      assert players == players[..m] + [players[m]];
      var rid := Resolve(rows, players[m].steamid);
      WithPlayerKeepsDistinct(Players(rows, players[..m]), players[m], rid);
      forall p | p in Players(rows, players) && p.steamid == id ensures CountersOf(p) == DoneBy(rows, players, id) {
        CountersOfOne(rows, players[..m], players[m], id, p);
      }
    } else {
      assert !Played(rows, players, id);
    }
  }

  lemma TheOneOf(out: seq<Player>, p: Player, id: Id, q: Player)
    requires DistinctPlayers(out) && q in WithPlayer(out, p, id) && q.steamid == id
    ensures var at := PlayerAt(out, id); q == if at.Some? then Both(out[at.value], p) else p.(steamid := id)
  {
    WithPlayerKeepsDistinct(out, p, id);
    var after := WithPlayer(out, p, id);
    var i :| 0 <= i < |after| && after[i] == q;
    var at := PlayerAt(out, id);
    assert after[if at.Some? then at.value else |out|].steamid == id;
  }

  lemma CountersOfOne(rows: Rows, before: seq<Player>, last: Player, id: Id, p: Player)
    requires DistinctPlayers(Players(rows, before))
    requires (exists q :: q in Players(rows, before) && q.steamid == id) <==> Played(rows, before, id)
    requires forall q | q in Players(rows, before) && q.steamid == id :: CountersOf(q) == DoneBy(rows, before, id)
    requires p in WithPlayer(Players(rows, before), last, Resolve(rows, last.steamid)) && p.steamid == id
    ensures CountersOf(p) == DoneBy(rows, before + [last], id)
  {
    hide *;
    var out := Players(rows, before);
    DoneByMore(rows, before, last, id);
    WithPlayerKeepsDistinct(out, last, Resolve(rows, last.steamid));
    if Resolve(rows, last.steamid) == id {
      TheOneOf(out, last, id, p);
      var at := PlayerAt(out, id);
      if at.None? {
        NobodyDidNothing(rows, before, id);
        CountersOfRenamed(last, id);
      } else {
        assert out[at.value] in out;
        CountersAddUp(out[at.value], last);
      }
    }
  }

  lemma DoneByMore(rows: Rows, before: seq<Player>, last: Player, id: Id)
    ensures DoneBy(rows, before + [last], id) ==
      if Resolve(rows, last.steamid) == id then DoneBy(rows, before, id).Plus(CountersOf(last))
      else DoneBy(rows, before, id)
  {
    assert (before + [last])[..|before|] == before;
  }

  lemma CountersAddUp(seen: Player, p: Player)
    ensures CountersOf(Both(seen, p)) == CountersOf(seen).Plus(CountersOf(p))
  {
  }

  lemma CountersOfRenamed(p: Player, id: Id)
    ensures CountersOf(p.(steamid := id)) == Counters(0, 0, 0, 0, 0).Plus(CountersOf(p))
  {
  }

  lemma {:induction false} NobodyDidNothing(rows: Rows, players: seq<Player>, id: Id)
    requires !Played(rows, players, id)
    ensures DoneBy(rows, players, id) == Counters(0, 0, 0, 0, 0)
    decreases |players|
  {
    if players != [] {
      assert players == players[..|players| - 1] + [players[|players| - 1]];
      NobodyDidNothing(rows, players[..|players| - 1], id);
    }
  }

  // ---------- start and team ----------

  /** The first team the person was seen on. */
  ghost function FirstTeam(rows: Rows, players: seq<Player>, id: Id): Option<Side> {
    if players == [] then None
    else
      var rest, p := FirstTeam(rows, players[..|players| - 1], id), players[|players| - 1];
      if rest.None? && Resolve(rows, p.steamid) == id then Some(p.team) else rest
  }

  /** The earliest map any of their accounts was rostered on. */
  ghost function EarliestMap(rows: Rows, players: seq<Player>, id: Id): Option<nat> {
    if players == [] then None
    else
      var rest, p := EarliestMap(rows, players[..|players| - 1], id), players[|players| - 1];
      if Resolve(rows, p.steamid) == id && (rest.None? || p.joinedMap < rest.value) then Some(p.joinedMap) else rest
  }

  lemma {:induction false} FirstTeamEarliestMap(rows: Rows, players: seq<Player>, id: Id)
    ensures FirstTeam(rows, players, id).Some? <==> Played(rows, players, id)
    ensures EarliestMap(rows, players, id).Some? <==> Played(rows, players, id)
    ensures forall p | p in Players(rows, players) && p.steamid == id ::
      FirstTeam(rows, players, id) == Some(p.team) && EarliestMap(rows, players, id) == Some(p.joinedMap)
    decreases |players|
  {
    if players != [] {
      var before, last := players[..|players| - 1], players[|players| - 1];
      assert players == before + [last];
      FirstTeamEarliestMap(rows, before, id);
      CountersAreConserved(rows, before, id);
      StartOfOne(rows, players, id);
    }
  }

  lemma StartOfOne(rows: Rows, players: seq<Player>, id: Id)
    requires players != []
    requires
      var before := players[..|players| - 1];
      && DistinctPlayers(Players(rows, before))
      && ((exists p :: p in Players(rows, before) && p.steamid == id) <==> FirstTeam(rows, before, id).Some?)
      && ((exists p :: p in Players(rows, before) && p.steamid == id) <==> EarliestMap(rows, before, id).Some?)
      && forall p | p in Players(rows, before) && p.steamid == id ::
           FirstTeam(rows, before, id) == Some(p.team) && EarliestMap(rows, before, id) == Some(p.joinedMap)
    ensures forall p | p in Players(rows, players) && p.steamid == id ::
      FirstTeam(rows, players, id) == Some(p.team) && EarliestMap(rows, players, id) == Some(p.joinedMap)
  {
    var before, last := players[..|players| - 1], players[|players| - 1];
    var out := Players(rows, before);
    forall p | p in Players(rows, players) && p.steamid == id
      ensures FirstTeam(rows, players, id) == Some(p.team) && EarliestMap(rows, players, id) == Some(p.joinedMap)
    {
      WithPlayerKeepsDistinct(out, last, Resolve(rows, last.steamid));
      if Resolve(rows, last.steamid) == id {
        TheOneOf(out, last, id, p);
        if PlayerAt(out, id).Some? { assert out[PlayerAt(out, id).value] in out; }
      }
    }
  }

  // ---------- skills ----------

  ghost predicate Measured(rows: Rows, skills: seq<Skill>, id: Id) {
    exists s :: s in skills && Resolve(rows, s.steamid) == id
  }

  lemma WithSkillKeepsDistinct(out: seq<Skill>, s: Skill, id: Id)
    requires DistinctSkills(out)
    ensures DistinctSkills(WithSkill(out, s, id))
    ensures forall q | q in WithSkill(out, s, id) :: q.steamid == id || q in out
    ensures forall q | q in out && q.steamid != id :: q in WithSkill(out, s, id)
    ensures exists q :: q in WithSkill(out, s, id) && q.steamid == id
  {
    var at := SkillAt(out, id);
    var after := WithSkill(out, s, id);
    if at.Some? {
      assert after[at.value] in after;
      forall q | q in out && q.steamid != id ensures q in after {
        var i :| 0 <= i < |out| && out[i] == q;
        assert after[i] == q;
      }
    } else {
      assert after[|out|] in after;
      forall i | 0 <= i < |out| ensures after[i].steamid != id { assert out[i] in out; }
    }
  }

  lemma TheSkillOf(out: seq<Skill>, s: Skill, id: Id, q: Skill)
    requires DistinctSkills(out) && q in WithSkill(out, s, id) && q.steamid == id
    ensures
      var at := SkillAt(out, id);
      q == Skill(id, if at.Some? then AddedStats(out[at.value].stats, s.stats) else s.stats)
  {
    WithSkillKeepsDistinct(out, s, id);
    var after := WithSkill(out, s, id);
    var i :| 0 <= i < |after| && after[i] == q;
    var at := SkillAt(out, id);
    assert after[if at.Some? then at.value else |out|].steamid == id;
  }

  function Stat(stats: Stats, key: string): Option<int> {
    if key in stats then Some(stats[key]) else None
  }

  /** One line a person: a stat is there exactly when an account of theirs measured it, and then is the sum. */
  lemma {:induction false} SkillsAreConserved(rows: Rows, skills: seq<Skill>, id: Id, key: string)
    ensures DistinctSkills(Skills(rows, skills))
    ensures (exists s :: s in Skills(rows, skills) && s.steamid == id) <==> Measured(rows, skills, id)
    ensures forall s | s in Skills(rows, skills) && s.steamid == id ::
      Stat(s.stats, key) == MeasuredFor(rows, skills, id, key)
    decreases |skills|
  {
    if skills != [] {
      var m := |skills| - 1;
      SkillsAreConserved(rows, skills[..m], id, key);
      assert skills == skills[..m] + [skills[m]];
      WithSkillKeepsDistinct(Skills(rows, skills[..m]), skills[m], Resolve(rows, skills[m].steamid));
      forall s | s in Skills(rows, skills) && s.steamid == id
        ensures Stat(s.stats, key) == MeasuredFor(rows, skills, id, key)
      {
        StatOfOne(rows, skills[..m], skills[m], id, key, s);
      }
    } else {
      assert !Measured(rows, skills, id);
    }
  }

  lemma StatAdded(seen: Stats, more: Stats, key: string)
    ensures Stat(AddedStats(seen, more), key) ==
      if key in more then Some(Stat(seen, key).GetOr(0) + more[key]) else Stat(seen, key)
  {
  }

  lemma StatOfOne(rows: Rows, before: seq<Skill>, last: Skill, id: Id, key: string, s: Skill)
    requires DistinctSkills(Skills(rows, before))
    requires (exists q :: q in Skills(rows, before) && q.steamid == id) <==> Measured(rows, before, id)
    requires forall q | q in Skills(rows, before) && q.steamid == id ::
      Stat(q.stats, key) == MeasuredFor(rows, before, id, key)
    requires s in WithSkill(Skills(rows, before), last, Resolve(rows, last.steamid)) && s.steamid == id
    ensures Stat(s.stats, key) == MeasuredFor(rows, before + [last], id, key)
  {
    hide *;
    var out := Skills(rows, before);
    MeasuredForMore(rows, before, last, id, key);
    WithSkillKeepsDistinct(out, last, Resolve(rows, last.steamid));
    if Resolve(rows, last.steamid) == id {
      TheSkillOf(out, last, id, s);
      var at := SkillAt(out, id);
      if at.None? {
        NobodyMeasured(rows, before, id, key);
        NothingSeen(last.stats, key);
      } else {
        assert out[at.value] in out;
        StatAdded(out[at.value].stats, last.stats, key);
      }
    }
  }

  lemma NothingSeen(stats: Stats, key: string)
    ensures Option<int>.None.GetOr(0) == 0
    ensures Stat(stats, key) == if key in stats then Some(0 + stats[key]) else None
  {
  }

  lemma MeasuredForMore(rows: Rows, before: seq<Skill>, last: Skill, id: Id, key: string)
    ensures MeasuredFor(rows, before + [last], id, key) ==
      var rest := MeasuredFor(rows, before, id, key);
      if Resolve(rows, last.steamid) == id && key in last.stats then Some(rest.GetOr(0) + last.stats[key]) else rest
  {
    assert (before + [last])[..|before|] == before;
  }

  lemma {:induction false} NobodyMeasured(rows: Rows, skills: seq<Skill>, id: Id, key: string)
    requires !Measured(rows, skills, id)
    ensures MeasuredFor(rows, skills, id, key) == None
    decreases |skills|
  {
    if skills != [] {
      assert skills == skills[..|skills| - 1] + [skills[|skills| - 1]];
      NobodyMeasured(rows, skills[..|skills| - 1], id, key);
    }
  }

  // ---------- abandoners ----------

  ghost predicate DistinctIds(ids: seq<Id>) {
    forall i, j | 0 <= i < j < |ids| :: ids[i] != ids[j]
  }

  lemma {:induction false} AbandonersAreKept(rows: Rows, ids: seq<Id>, id: Id)
    ensures DistinctIds(Abandoners(rows, ids))
    ensures id in Abandoners(rows, ids) <==> exists x :: x in ids && Resolve(rows, x) == id
    decreases |ids|
  {
    if ids != [] {
      var m := |ids| - 1;
      AbandonersAreKept(rows, ids[..m], id);
      assert ids == ids[..m] + [ids[m]];
    }
  }

  // ---------- once is enough ----------

  /** Every id is its own person and no two lines are of one. */
  ghost predicate Settled(rows: Rows, d: Dump) {
    && DistinctPlayers(d.parts.players) && DistinctSkills(d.parts.skills) && DistinctIds(d.parts.abandoners)
    && (forall p | p in d.parts.players :: Resolve(rows, p.steamid) == p.steamid)
    && (forall s | s in d.parts.skills :: Resolve(rows, s.steamid) == s.steamid)
    && (forall id | id in d.parts.abandoners :: Resolve(rows, id) == id)
  }

  lemma NewPlayerIsLast(out: seq<Player>, p: Player)
    requires forall q | q in out :: q.steamid != p.steamid
    ensures WithPlayer(out, p, p.steamid) == out + [p]
  {
  }

  lemma NewSkillIsLast(out: seq<Skill>, s: Skill)
    requires forall q | q in out :: q.steamid != s.steamid
    ensures WithSkill(out, s, s.steamid) == out + [s]
  {
  }

  lemma {:induction false} SettledPlayersStay(rows: Rows, players: seq<Player>)
    requires DistinctPlayers(players) && forall p | p in players :: Resolve(rows, p.steamid) == p.steamid
    ensures Players(rows, players) == players
    decreases |players|
  {
    if players != [] {
      var before, last := players[..|players| - 1], players[|players| - 1];
      assert players == before + [last];
      SettledPlayersStay(rows, before);
      NewPlayerIsLast(before, last);
    }
  }

  lemma {:induction false} SettledSkillsStay(rows: Rows, skills: seq<Skill>)
    requires DistinctSkills(skills) && forall s | s in skills :: Resolve(rows, s.steamid) == s.steamid
    ensures Skills(rows, skills) == skills
    decreases |skills|
  {
    if skills != [] {
      var before, last := skills[..|skills| - 1], skills[|skills| - 1];
      assert skills == before + [last];
      SettledSkillsStay(rows, before);
      NewSkillIsLast(before, last);
    }
  }

  lemma {:induction false} SettledAbandonersStay(rows: Rows, ids: seq<Id>)
    requires DistinctIds(ids) && forall id | id in ids :: Resolve(rows, id) == id
    ensures Abandoners(rows, ids) == ids
    decreases |ids|
  {
    if ids != [] {
      assert ids == ids[..|ids| - 1] + [ids[|ids| - 1]];
      SettledAbandonersStay(rows, ids[..|ids| - 1]);
    }
  }

  lemma CanonicalIsSettled(rows: Rows, d: Dump)
    requires OneHop(rows)
    ensures Settled(rows, Canonical(rows, d))
  {
    var r := Canonical(rows, d).parts;
    CountersAreConserved(rows, d.parts.players, "");
    SkillsAreConserved(rows, d.parts.skills, "", "");
    AbandonersAreKept(rows, d.parts.abandoners, "");
    forall p | p in r.players ensures Resolve(rows, p.steamid) == p.steamid {
      CountersAreConserved(rows, d.parts.players, p.steamid);
    }
    forall s | s in r.skills ensures Resolve(rows, s.steamid) == s.steamid {
      SkillsAreConserved(rows, d.parts.skills, s.steamid, "");
    }
    forall id | id in r.abandoners ensures Resolve(rows, id) == id {
      AbandonersAreKept(rows, d.parts.abandoners, id);
    }
  }

  /** Canonicalising twice is canonicalising once. */
  lemma CanonicalTwice(rows: Rows, d: Dump)
    requires OneHop(rows)
    ensures Canonical(rows, Canonical(rows, d)) == Canonical(rows, d)
  {
    var r := Canonical(rows, d);
    CanonicalIsSettled(rows, d);
    SettledPlayersStay(rows, r.parts.players);
    SettledSkillsStay(rows, r.parts.skills);
    SettledAbandonersStay(rows, r.parts.abandoners);
  }
}
