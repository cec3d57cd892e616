/** What an accepted dump is worth, and that a printed one reads back (plugin/pug-match.sp prints it). */
module DumpLaws {
  import opened Wrappers
  import opened Sets
  import opened DumpText
  import opened DumpParse

  // ---------- every accepted answer ----------

  /** `j` is the first END line after `i`. */
  ghost predicate FirstEnd(lines: seq<Line>, i: nat, j: nat) {
    && i < j < |lines| && Verb(lines[j]) == "END"
    && forall k | i < k < j :: Verb(lines[k]) != "END"
  }

  lemma {:induction false} ClosedByFirstEnd(parts: Parts, lines: seq<Line>, nonce: Option<string>,
                                            state: Option<State>, known: Known)
    returns (j: nat)
    requires ReadLines(parts, lines, nonce, state, known).Closed?
    ensures j < |lines| && Verb(lines[j]) == "END" && forall k | 0 <= k < j :: Verb(lines[k]) != "END"
    ensures Some(ReadLines(parts, lines, nonce, state, known).end) == ReadEnd(FieldsOf(lines[j]), nonce, state)
    decreases |lines|
  {
    var next := ReadLine(parts, lines[0], nonce, state, known);
    if next.Reading? {
      var k := ClosedByFirstEnd(next.parts, lines[1..], nonce, state, known);
      j := k + 1;
      forall m | 0 <= m < j ensures Verb(lines[m]) != "END" {
        if m > 0 { assert lines[m] == lines[1..][m - 1]; }
      }
    } else {
      j := 0;
    }
  }

  lemma EndIsOfTheBlock(f: Fields, nonce: Option<string>, state: Option<State>)
    requires ReadEnd(f, nonce, state).Some?
    ensures nonce.Some? ==> Get(f, "nonce") == nonce && StateOf(Get(f, "state")) == state
  {
  }

  lemma EndForfeitsTheLoser(f: Fields, nonce: Option<string>, state: Option<State>, e: End)
    requires ReadEnd(f, nonce, state) == Some(e)
    ensures e.forfeit == Some(A) ==> e.winner == Won(B)
    ensures e.forfeit == Some(B) ==> e.winner == Won(A)
    ensures e.forfeit.Some? <==> e.forfeitWhy.Some?
  {
  }

  /**
   When any header has our nonce, what is accepted is the last block that has it: opened and
   closed with our nonce and with one state, its result that of the block's first END line.
   */
  lemma AnswerIsOurLastBlock(lines: seq<Line>, nonce: string, known: Known, d: Dump) returns (i: nat, j: nat)
    requires Parsed(lines, Some(nonce), known) == Some(d)
    requires exists line :: line in lines && Carries(line, nonce)
    ensures i < |lines| && Carries(lines[i], nonce) && forall k | i < k < |lines| :: !Carries(lines[k], nonce)
    ensures FirstEnd(lines, i, j) && Get(FieldsOf(lines[j]), "nonce") == Some(nonce)
    ensures d.nonce == Some(nonce) && d.state.Some?
    ensures StateOf(Get(FieldsOf(lines[i]), "state")) == StateOf(Get(FieldsOf(lines[j]), "state")) == d.state
    ensures Some(d.matchId) == IntOf(Get(FieldsOf(lines[i]), "match"))
    ensures Some(d.end) == ReadEnd(FieldsOf(lines[j]), d.nonce, d.state)
  {
    hide ReadLine, ReadLines, ReadEnd, IntOf, FieldsOf, StateOf;
    var line :| line in lines && Carries(line, nonce);
    i := LastCarrying(lines, nonce).value;
    var rest := lines[i + 1..];
    var k := ClosedByFirstEnd(Nothing, rest, d.nonce, d.state, known);
    j := i + 1 + k;
    assert lines[j] == rest[k];
    EndIsOfTheBlock(FieldsOf(lines[j]), d.nonce, d.state);
    forall m | i < m < j ensures Verb(lines[m]) != "END" { assert lines[m] == rest[m - i - 1]; }
  }

  /** With no header of ours an answer is accepted only when no header has a nonce at all, and then claims no state. */
  lemma ForeignNonceIsRefused(lines: seq<Line>, nonce: string, known: Known)
    requires forall line | line in lines :: !Carries(line, nonce)
    ensures SomeNonce(lines) ==> Parsed(lines, Some(nonce), known) == None
    ensures !SomeNonce(lines) ==> Parsed(lines, Some(nonce), known) == Parsed(lines, None, known)
    ensures Parsed(lines, Some(nonce), known).Some? ==> Parsed(lines, Some(nonce), known).value.state == None
  {
    assert LastCarrying(lines, nonce).None?;
  }

  /** A forfeit always names the side that lost, and has its reason exactly then. */
  lemma ForfeitNamesTheLoser(lines: seq<Line>, ours: Option<string>, known: Known, d: Dump)
    requires Parsed(lines, ours, known) == Some(d)
    ensures d.end.forfeit == Some(A) ==> d.end.winner == Won(B)
    ensures d.end.forfeit == Some(B) ==> d.end.winner == Won(A)
    ensures d.end.forfeit.Some? <==> d.end.forfeitWhy.Some?
  {
    hide ReadLine, ReadLines, ReadEnd, IntOf, FieldsOf, StateOf, ChosenStart;
    var rest := lines[ChosenStart(lines, ours).value.at + 1..];
    var j := ClosedByFirstEnd(Nothing, rest, d.nonce, d.state, known);
    EndForfeitsTheLoser(FieldsOf(rest[j]), d.nonce, d.state, d.end);
  }

  ghost predicate Distinct(ids: seq<string>) {
    forall i, j | 0 <= i < j < |ids| :: ids[i] != ids[j]
  }

  lemma {:induction false} AbandonersStayDistinct(parts: Parts, lines: seq<Line>, nonce: Option<string>,
                                                  state: Option<State>, known: Known)
    requires Distinct(parts.abandoners) && !ReadLines(parts, lines, nonce, state, known).Refused?
    ensures Distinct(ReadLines(parts, lines, nonce, state, known).parts.abandoners)
    decreases |lines|
  {
    if lines != [] {
      var next := ReadLine(parts, lines[0], nonce, state, known);
      if next.Reading? { AbandonersStayDistinct(next.parts, lines[1..], nonce, state, known); }
    }
  }

  lemma NoAbandonerTwice(lines: seq<Line>, ours: Option<string>, known: Known, d: Dump)
    requires Parsed(lines, ours, known) == Some(d)
    ensures Distinct(d.parts.abandoners)
  {
    AbandonersStayDistinct(Nothing, lines[ChosenStart(lines, ours).value.at + 1..], d.nonce, d.state, known);
  }

  // ---------- how the plugin prints a dump ----------

  function Add(words: Line, key: string, value: string): Line {
    words + [Field(key, value)]
  }

  function SideText(s: Side): string {
    if s == A then "a" else "b"
  }

  function WinnerText(w: Winner): string {
    if w.Draw? then "draw" else SideText(w.side)
  }

  function StateText(s: State): string {
    match s
    case Pending => "pending"
    case Live => "live"
    case Ended => "ended"
  }

  function Tail(words: Line, nonce: string, state: State): Line {
    Add(Add(words, "nonce", nonce), "state", StateText(state))
  }

  function HeaderLine(d: Dump, nonce: string, state: State): Line {
    ["DUMP"]
    + Tail(Add(Add([], "match", IntText(d.matchId)), "skilldetect", if d.skillDetect then "1" else "0"), nonce, state)
  }

  function MapLine(m: DumpMap): Line {
    ["MAP"] + Add(Add(Add([], "map", m.name), "a", IntText(m.a)), "b", IntText(m.b))
  }

  function StatWords(p: Player): Line {
    Add(Add(Add(Add(Add([], "sidmg", IntText(p.sidmg)), "sikill", IntText(p.sikill)), "ck", IntText(p.ck)),
            "ff", IntText(p.ff)), "rev", IntText(p.rev))
  }

  function StatLine(p: Player): Line {
    ["STAT"]
    + (Add(Add(Add([], "steamid", p.steamid), "team", SideText(p.team)), "joined_map", IntText(p.joinedMap))
       + StatWords(p))
  }

  /** The stats in whatever order. */
  ghost function AddStats(words: Line, stats: map<string, int>): Line
    decreases |stats|
  {
    if stats == map[] then words
    else
      var key := Any(stats.Keys);
      AddStats(Add(words, key, IntText(stats[key])), stats - {key})
  }

  ghost function SkillLine(s: Skill): Line {
    ["SKILL"] + AddStats(Add([], "steamid", s.steamid), s.stats)
  }

  function AbandonLine(id: string): Line {
    ["ABANDON"] + Add([], "steamid", id)
  }

  function Forfeit(words: Line, e: End): Line {
    if e.forfeit.None? then words
    else
      var named := Add(words, "forfeit", SideText(e.forfeit.value));
      if e.forfeitWhy == Some(Disconnect) then Add(named, "forfeit_why", "disconnect")
      else if e.forfeitWhy == Some(Staff) then Add(named, "forfeit_why", "staff")
      else named
  }

  function EndLine(e: End, nonce: string, state: State): Line {
    var totals := Add(Add(Add([], "winner", WinnerText(e.winner)), "a", IntText(e.totalA)), "b", IntText(e.totalB));
    ["END"] + Tail(Forfeit(totals, e), nonce, state)
  }

  ghost function PartLines(p: Parts): seq<Line> {
    MapLines(p.maps) + StatLines(p.players) + SkillLines(p.skills) + AbandonLines(p.abandoners)
  }

  /** What the plugin can have recorded. */
  ghost predicate Printable(d: Dump, known: Known) {
    && d.nonce.Some? && d.state.Some?
    && (forall m | m in d.parts.maps :: m.name != "")
    && (forall p | p in d.parts.players :: IsSteamId(Some(p.steamid)))
    && (forall s | s in d.parts.skills :: PrintableSkill(s, known))
    && (forall id | id in d.parts.abandoners :: IsSteamId(Some(id)))
    && Distinct(d.parts.abandoners)
    && PrintableEnd(d.end)
  }

  ghost predicate PrintableSkill(s: Skill, known: Known) {
    IsSteamId(Some(s.steamid)) && forall key | key in s.stats :: IsKey(key) && key != "steamid" && known(key)
  }

  ghost predicate PrintableEnd(e: End) {
    && (e.forfeit.Some? ==> e.winner == Won(if e.forfeit.value == A then B else A))
    && (e.forfeit.Some? <==> e.forfeitWhy.Some?)
  }

  // ---------- each line reads back ----------

  lemma LineFields(verb: string, words: Line)
    ensures FieldsOf([verb] + words) == Kv(words) && Verb([verb] + words) == verb
  {
    assert ([verb] + words)[1..] == words;
  }

  lemma MapReadsBack(m: DumpMap)
    requires m.name != ""
    ensures ReadMap(FieldsOf(MapLine(m))) == Some(m) && Verb(MapLine(m)) == "MAP"
  {
    var w1 := Add([], "map", m.name);
    var w2 := Add(w1, "a", IntText(m.a));
    OneMoreField([], "map", m.name);
    OneMoreField(w1, "a", IntText(m.a));
    OneMoreField(w2, "b", IntText(m.b));
    LineFields("MAP", Add(w2, "b", IntText(m.b)));
    IntTextReadsBack(m.a);
    IntTextReadsBack(m.b);
  }

  lemma AbandonReadsBack(id: string)
    ensures Get(FieldsOf(AbandonLine(id)), "steamid") == Some(id) && Verb(AbandonLine(id)) == "ABANDON"
  {
    OneMoreField([], "steamid", id);
    LineFields("ABANDON", Add([], "steamid", id));
  }

  lemma HeaderReadsBack(d: Dump, nonce: string, state: State)
    ensures
      var f := FieldsOf(HeaderLine(d, nonce, state));
      && Verb(HeaderLine(d, nonce, state)) == "DUMP"
      && IntOf(Get(f, "match")) == Some(d.matchId) && (Get(f, "skilldetect") == Some("1") <==> d.skillDetect)
      && Get(f, "nonce") == Some(nonce) && StateOf(Get(f, "state")) == Some(state)
  {
    var detect := if d.skillDetect then "1" else "0";
    var w1 := Add([], "match", IntText(d.matchId));
    var w2 := Add(w1, "skilldetect", detect);
    OneMoreField([], "match", IntText(d.matchId));
    OneMoreField(w1, "skilldetect", detect);
    TailReadsBack(w2, nonce, state);
    LineFields("DUMP", Tail(w2, nonce, state));
    IntTextReadsBack(d.matchId);
  }

  lemma TailReadsBack(words: Line, nonce: string, state: State)
    ensures Kv(Tail(words, nonce, state)) == Kv(words)["nonce" := nonce]["state" := StateText(state)]
    ensures StateOf(Some(StateText(state))) == Some(state)
  {
    OneMoreField(words, "nonce", nonce);
    OneMoreField(Add(words, "nonce", nonce), "state", StateText(state));
  }

  lemma EndReadsBack(e: End, nonce: string, state: State)
    requires PrintableEnd(e)
    ensures ReadEnd(FieldsOf(EndLine(e, nonce, state)), Some(nonce), Some(state)) == Some(e)
    ensures Verb(EndLine(e, nonce, state)) == "END"
  {
    var w1 := Add([], "winner", WinnerText(e.winner));
    var w2 := Add(w1, "a", IntText(e.totalA));
    var w3 := Add(w2, "b", IntText(e.totalB));
    OneMoreField([], "winner", WinnerText(e.winner));
    OneMoreField(w1, "a", IntText(e.totalA));
    OneMoreField(w2, "b", IntText(e.totalB));
    ForfeitFields(w3, e);
    TailReadsBack(Forfeit(w3, e), nonce, state);
    LineFields("END", Tail(Forfeit(w3, e), nonce, state));
    hide Forfeit, Kv, IntOf, IntText;
    IntTextReadsBack(e.totalA);
    IntTextReadsBack(e.totalB);
    EndOfFields(FieldsOf(EndLine(e, nonce, state)), e, nonce, state);
  }

  /** The fields of a printed END line. */
  function EndFields(e: End): Fields {
    var plain := map["winner" := WinnerText(e.winner), "a" := IntText(e.totalA), "b" := IntText(e.totalB)];
    if e.forfeit.None? then plain
    else
      var named := plain["forfeit" := SideText(e.forfeit.value)];
      if e.forfeitWhy == Some(Disconnect) then named["forfeit_why" := "disconnect"]
      else if e.forfeitWhy == Some(Staff) then named["forfeit_why" := "staff"]
      else named
  }

  lemma EndOfFields(f: Fields, e: End, nonce: string, state: State)
    requires PrintableEnd(e) && f == EndFields(e)["nonce" := nonce]["state" := StateText(state)]
    requires IntOf(Some(IntText(e.totalA))) == Some(e.totalA) && IntOf(Some(IntText(e.totalB))) == Some(e.totalB)
    ensures ReadEnd(f, Some(nonce), Some(state)) == Some(e)
  {
    hide IntOf, IntText;
    WinnerReadsBack(e.winner);
    assert StateOf(Some(StateText(state))) == Some(state);
    assert Get(f, "winner") == Some(WinnerText(e.winner));
    assert Get(f, "state") == Some(StateText(state)) && Get(f, "nonce") == Some(nonce);
    assert Get(f, "a") == Some(IntText(e.totalA)) && Get(f, "b") == Some(IntText(e.totalB));
    if e.forfeit.Some? {
      assert Get(f, "forfeit") == Some(SideText(e.forfeit.value));
      assert Get(f, "forfeit_why") == if e.forfeitWhy == Some(Disconnect) then Some("disconnect")
                                      else if e.forfeitWhy == Some(Staff) then Some("staff") else None;
      assert "disconnect"[0] != "staff"[0];
      assert SideOf(Get(f, "forfeit")) == e.forfeit;
      assert e.winner != Draw && e.winner != Won(e.forfeit.value);
      assert ReadEnd(f, Some(nonce), Some(state)).value.forfeit == e.forfeit;
      match e.forfeitWhy.value
      case Gg => assert Get(f, "forfeit_why") == None;
      case Disconnect => assert Get(f, "forfeit_why") == Some("disconnect");
      case Staff => assert Get(f, "forfeit_why") == Some("staff");
    } else {
      assert Get(f, "forfeit") == None;
    }
  }

  lemma WinnerReadsBack(w: Winner)
    ensures WinnerOf(Some(WinnerText(w))) == Some(w)
    ensures forall s: Side :: SideOf(Some(SideText(s))) == Some(s)
  {
    assert "a"[0] != "b"[0];
  }

  lemma ForfeitFields(words: Line, e: End)
    ensures
      var f := Kv(Forfeit(words, e));
      var named := if e.forfeit.Some? then Kv(words)["forfeit" := SideText(e.forfeit.value)] else Kv(words);
      f == if e.forfeit.Some? && e.forfeitWhy == Some(Disconnect) then named["forfeit_why" := "disconnect"]
           else if e.forfeit.Some? && e.forfeitWhy == Some(Staff) then named["forfeit_why" := "staff"]
           else named
  {
    if e.forfeit.Some? {
      var named := Add(words, "forfeit", SideText(e.forfeit.value));
      OneMoreField(words, "forfeit", SideText(e.forfeit.value));
      OneMoreField(named, "forfeit_why", "disconnect");
      OneMoreField(named, "forfeit_why", "staff");
    }
  }

  lemma {:induction false} MoreFields(a: Line, b: Line)
    ensures Kv(a + b) == Kv(a) + Kv(b)
    decreases |b|
  {
    if b == [] {
      assert a + b == a;
    } else {
      assert (a + b)[..|a + b| - 1] == a + b[..|b| - 1];
      MoreFields(a, b[..|b| - 1]);
    }
  }

  lemma StatWordsReadBack(p: Player)
    ensures Kv(StatWords(p)) ==
      map["sidmg" := IntText(p.sidmg), "sikill" := IntText(p.sikill), "ck" := IntText(p.ck), "ff" := IntText(p.ff),
          "rev" := IntText(p.rev)]
  {
    var w1 := Add([], "sidmg", IntText(p.sidmg));
    var w2 := Add(w1, "sikill", IntText(p.sikill));
    var w3 := Add(w2, "ck", IntText(p.ck));
    var w4 := Add(w3, "ff", IntText(p.ff));
    OneMoreField([], "sidmg", IntText(p.sidmg));
    OneMoreField(w1, "sikill", IntText(p.sikill));
    OneMoreField(w2, "ck", IntText(p.ck));
    OneMoreField(w3, "ff", IntText(p.ff));
    OneMoreField(w4, "rev", IntText(p.rev));
  }

  lemma StatReadsBack(p: Player)
    requires IsSteamId(Some(p.steamid))
    ensures ReadStat(FieldsOf(StatLine(p))) == Some(p) && Verb(StatLine(p)) == "STAT"
  {
    var w1 := Add([], "steamid", p.steamid);
    var w2 := Add(w1, "team", SideText(p.team));
    var w3 := Add(w2, "joined_map", IntText(p.joinedMap));
    OneMoreField([], "steamid", p.steamid);
    OneMoreField(w1, "team", SideText(p.team));
    OneMoreField(w2, "joined_map", IntText(p.joinedMap));
    StatWordsReadBack(p);
    MoreFields(w3, StatWords(p));
    LineFields("STAT", w3 + StatWords(p));
    hide StatWords, IntText, IntOf, Kv;
    StatOfFields(FieldsOf(StatLine(p)), p);
  }

  lemma StatOfFields(f: Fields, p: Player)
    requires IsSteamId(Some(p.steamid))
    requires f ==
      map["steamid" := p.steamid, "team" := SideText(p.team), "joined_map" := IntText(p.joinedMap)]
        + map["sidmg" := IntText(p.sidmg), "sikill" := IntText(p.sikill), "ck" := IntText(p.ck), "ff" := IntText(p.ff),
              "rev" := IntText(p.rev)]
    ensures ReadStat(f) == Some(p)
  {
    hide IntText, IntOf, IsSteamId;
    IntTextReadsBack(p.joinedMap);
    IntTextReadsBack(p.sidmg);
    IntTextReadsBack(p.sikill);
    IntTextReadsBack(p.ck);
    IntTextReadsBack(p.ff);
    IntTextReadsBack(p.rev);
  }

  lemma {:induction false} StatsReadBack(words: Line, stats: map<string, int>)
    requires forall key | key in stats :: IsKey(key)
    ensures Kv(AddStats(words, stats)) == Kv(words) + map key | key in stats :: IntText(stats[key])
    decreases |stats|
  {
    hide Kv, IntText, IsKey, Field;
    if stats != map[] {
      var key := Any(stats.Keys);
      OneMoreField(words, key, IntText(stats[key]));
      StatsReadBack(Add(words, key, IntText(stats[key])), stats - {key});
    }
  }

  lemma SkillReadsBack(s: Skill, known: Known)
    requires PrintableSkill(s, known)
    ensures ReadSkill(FieldsOf(SkillLine(s)), known) == Some(s) && Verb(SkillLine(s)) == "SKILL"
  {
    OneMoreField([], "steamid", s.steamid);
    StatsReadBack(Add([], "steamid", s.steamid), s.stats);
    LineFields("SKILL", AddStats(Add([], "steamid", s.steamid), s.stats));
    hide AddStats, Kv, IntText, IntOf, IsKey;
    SkillOfFields(FieldsOf(SkillLine(s)), s, known);
  }

  lemma SkillOfFields(f: Fields, s: Skill, known: Known)
    requires PrintableSkill(s, known)
    requires f == map["steamid" := s.steamid] + map key | key in s.stats :: IntText(s.stats[key])
    ensures ReadSkill(f, known) == Some(s)
  {
    hide IntText, IntOf, IsSteamId, IsKey;
    forall key | key in s.stats ensures f[key] == IntText(s.stats[key]) && IntOf(Some(f[key])) == Some(s.stats[key]) {
      IntTextReadsBack(s.stats[key]);
    }
    forall key | key in f && key != "steamid" && known(key) ensures key in s.stats && IntOf(Some(f[key])).Some? {
    }
    assert (map k | k in f && k != "steamid" && known(k) :: IntOf(Some(f[k])).GetOr(0)) == s.stats;
  }

  // ---------- a printed block reads back ----------

  /** A line the parser acts on once it is inside a block. */
  predicate Acts(line: Line) {
    || Verb(line) == "MAP" || Verb(line) == "STAT" || Verb(line) == "SKILL"
    || Verb(line) == "ABANDON" || Verb(line) == "END"
  }

  ghost function WithoutNoise(lines: seq<Line>): seq<Line> {
    if lines == [] then []
    else if Acts(lines[0]) then [lines[0]] + WithoutNoise(lines[1..])
    else WithoutNoise(lines[1..])
  }

  lemma {:induction false} NoiseIsSkipped(parts: Parts, lines: seq<Line>, nonce: Option<string>, state: Option<State>,
                                          known: Known)
    ensures ReadLines(parts, lines, nonce, state, known) == ReadLines(parts, WithoutNoise(lines), nonce, state, known)
    decreases |lines|
  {
    hide ReadMap, ReadStat, ReadSkill, ReadEnd;
    if lines != [] {
      var next := ReadLine(parts, lines[0], nonce, state, known);
      if Acts(lines[0]) {
        assert WithoutNoise(lines)[0] == lines[0] && WithoutNoise(lines)[1..] == WithoutNoise(lines[1..]);
        if next.Reading? { NoiseIsSkipped(next.parts, lines[1..], nonce, state, known); }
      } else {
        NoiseIsSkipped(parts, lines[1..], nonce, state, known);
      }
    }
  }

  lemma {:induction false} ReadsOn(parts: Parts, a: seq<Line>, b: seq<Line>, nonce: Option<string>,
                                   state: Option<State>, known: Known)
    ensures
      var first := ReadLines(parts, a, nonce, state, known);
      ReadLines(parts, a + b, nonce, state, known) ==
        if first.Reading? then ReadLines(first.parts, b, nonce, state, known) else first
    decreases |a|
  {
    hide ReadLine;
    if a == [] {
      assert a + b == b;
    } else {
      assert (a + b)[0] == a[0] && (a + b)[1..] == a[1..] + b;
      var next := ReadLine(parts, a[0], nonce, state, known);
      if next.Reading? { ReadsOn(next.parts, a[1..], b, nonce, state, known); }
    }
  }

  ghost function MapLines(maps: seq<DumpMap>): seq<Line> {
    seq(|maps|, i requires 0 <= i < |maps| => MapLine(maps[i]))
  }

  ghost function StatLines(players: seq<Player>): seq<Line> {
    seq(|players|, i requires 0 <= i < |players| => StatLine(players[i]))
  }

  ghost function SkillLines(skills: seq<Skill>): seq<Line> {
    seq(|skills|, i requires 0 <= i < |skills| => SkillLine(skills[i]))
  }

  ghost function AbandonLines(ids: seq<string>): seq<Line> {
    seq(|ids|, i requires 0 <= i < |ids| => AbandonLine(ids[i]))
  }

  lemma {:induction false} MapsReadBack(parts: Parts, maps: seq<DumpMap>, nonce: Option<string>, state: Option<State>,
                                        known: Known)
    requires forall m | m in maps :: m.name != ""
    ensures ReadLines(parts, MapLines(maps), nonce, state, known) == Reading(parts.(maps := parts.maps + maps))
    decreases |maps|
  {
    hide MapLine, ReadMap, FieldsOf;
    if maps == [] {
      assert parts.maps + maps == parts.maps;
    } else {
      MapReadsBack(maps[0]);
      assert MapLines(maps)[0] == MapLine(maps[0]) && MapLines(maps)[1..] == MapLines(maps[1..]);
      MapsReadBack(parts.(maps := parts.maps + [maps[0]]), maps[1..], nonce, state, known);
      assert parts.maps + [maps[0]] + maps[1..] == parts.maps + maps;
    }
  }

  lemma {:induction false} StatsAllReadBack(parts: Parts, players: seq<Player>, nonce: Option<string>,
                                            state: Option<State>, known: Known)
    requires forall p | p in players :: IsSteamId(Some(p.steamid))
    ensures ReadLines(parts, StatLines(players), nonce, state, known) ==
      Reading(parts.(players := parts.players + players))
    decreases |players|
  {
    hide StatLine, ReadStat, FieldsOf, IsSteamId;
    if players == [] {
      assert parts.players + players == parts.players;
    } else {
      StatReadsBack(players[0]);
      assert StatLines(players)[0] == StatLine(players[0]) && StatLines(players)[1..] == StatLines(players[1..]);
      StatsAllReadBack(parts.(players := parts.players + [players[0]]), players[1..], nonce, state, known);
      assert parts.players + [players[0]] + players[1..] == parts.players + players;
    }
  }

  lemma {:induction false} SkillsReadBack(parts: Parts, skills: seq<Skill>, nonce: Option<string>,
                                          state: Option<State>, known: Known)
    requires forall s | s in skills :: PrintableSkill(s, known)
    ensures ReadLines(parts, SkillLines(skills), nonce, state, known) ==
      Reading(parts.(skills := parts.skills + skills))
    decreases |skills|
  {
    hide SkillLine, ReadSkill, FieldsOf, PrintableSkill;
    if skills == [] {
      assert parts.skills + skills == parts.skills;
    } else {
      SkillReadsBack(skills[0], known);
      assert SkillLines(skills)[0] == SkillLine(skills[0]) && SkillLines(skills)[1..] == SkillLines(skills[1..]);
      SkillsReadBack(parts.(skills := parts.skills + [skills[0]]), skills[1..], nonce, state, known);
      assert parts.skills + [skills[0]] + skills[1..] == parts.skills + skills;
    }
  }

  lemma {:induction false} AbandonsReadBack(parts: Parts, ids: seq<string>, nonce: Option<string>,
                                            state: Option<State>, known: Known)
    requires forall id | id in ids :: IsSteamId(Some(id))
    requires Distinct(parts.abandoners + ids)
    ensures ReadLines(parts, AbandonLines(ids), nonce, state, known) ==
      Reading(parts.(abandoners := parts.abandoners + ids))
    decreases |ids|
  {
    hide AbandonLine, FieldsOf, IsSteamId;
    if ids == [] {
      assert parts.abandoners + ids == parts.abandoners;
    } else {
      AbandonReadsBack(ids[0]);
      assert AbandonLines(ids)[0] == AbandonLine(ids[0]) && AbandonLines(ids)[1..] == AbandonLines(ids[1..]);
      var more := parts.abandoners + [ids[0]];
      assert ids[0] !in parts.abandoners by {
        assert (parts.abandoners + ids)[|parts.abandoners|] == ids[0];
        assert forall i | 0 <= i < |parts.abandoners| :: (parts.abandoners + ids)[i] == parts.abandoners[i];
      }
      assert more + ids[1..] == parts.abandoners + ids;
      AbandonsReadBack(parts.(abandoners := more), ids[1..], nonce, state, known);
    }
  }

  lemma BlockReadsBack(d: Dump, nonce: string, state: State, known: Known)
    requires Printable(d, known) && d.nonce == Some(nonce) && d.state == Some(state)
    ensures ReadLines(Nothing, PartLines(d.parts) + [EndLine(d.end, nonce, state)], d.nonce, d.state, known) ==
      Closed(d.parts, d.end)
  {
    hide ReadLines, ReadLine, MapLine, StatLine, SkillLine, AbandonLine, EndLine, IsSteamId;
    hide PrintableSkill, PrintableEnd;
    var p := d.parts;
    var (a, b, c, e) := (MapLines(p.maps), StatLines(p.players), SkillLines(p.skills), AbandonLines(p.abandoners));
    var end := [EndLine(d.end, nonce, state)];
    assert PartLines(p) == a + b + c + e;
    MapsReadBack(Nothing, p.maps, d.nonce, d.state, known);
    var p1 := Nothing.(maps := p.maps);
    assert [] + p.maps == p.maps && [] + p.players == p.players && [] + p.skills == p.skills;
    assert [] + p.abandoners == p.abandoners;
    StatsAllReadBack(p1, p.players, d.nonce, d.state, known);
    var p2 := p1.(players := p.players);
    SkillsReadBack(p2, p.skills, d.nonce, d.state, known);
    var p3 := p2.(skills := p.skills);
    AbandonsReadBack(p3, p.abandoners, d.nonce, d.state, known);
    ReadsOn(Nothing, a, b, d.nonce, d.state, known);
    ReadsOn(Nothing, a + b, c, d.nonce, d.state, known);
    ReadsOn(Nothing, a + b + c, e, d.nonce, d.state, known);
    ReadsOn(Nothing, a + b + c + e, end, d.nonce, d.state, known);
    EndCloses(p, d.end, nonce, state, known);
  }

  lemma EndCloses(p: Parts, e: End, nonce: string, state: State, known: Known)
    requires PrintableEnd(e)
    ensures ReadLines(p, [EndLine(e, nonce, state)], Some(nonce), Some(state), known) == Closed(p, e)
  {
    hide EndLine, ReadEnd, FieldsOf;
    EndReadsBack(e, nonce, state);
  }

  lemma OursIsLast(before: seq<Line>, header: Line, rest: seq<Line>, nonce: string)
    requires Carries(header, nonce) && forall line | line in rest :: !Carries(line, nonce)
    ensures ChosenStart(before + [header] + rest, Some(nonce)) == Some(Start(|before|, Some(nonce)))
  {
    var lines := before + [header] + rest;
    assert lines[|before|] == header;
    hide FieldsOf;
    var last := LastCarrying(lines, nonce);
    assert last.Some?;
    forall k | |before| < k < |lines| ensures !Carries(lines[k], nonce) { assert lines[k] == rest[k - |before| - 1]; }
  }

  lemma HeaderCarries(d: Dump, nonce: string, state: State)
    ensures Carries(HeaderLine(d, nonce, state), nonce)
  {
    HeaderReadsBack(d, nonce, state);
  }

  /** The lines of a printed block, woven with noise and followed by anything. */
  lemma WovenBlockReadsBack(d: Dump, body: seq<Line>, after: seq<Line>, known: Known)
    requires Printable(d, known)
    requires WithoutNoise(body) == PartLines(d.parts) + [EndLine(d.end, d.nonce.value, d.state.value)]
    ensures ReadLines(Nothing, body + after, d.nonce, d.state, known) == Closed(d.parts, d.end)
  {
    hide ReadLine, EndLine, PartLines;
    NoiseIsSkipped(Nothing, body, d.nonce, d.state, known);
    BlockReadsBack(d, d.nonce.value, d.state.value, known);
    ReadsOn(Nothing, body, after, d.nonce, d.state, known);
  }

  /**
   A printed dump that carries our nonce reads back as itself: whatever stands before it, whatever
   lines the parser does not act on stand between its own, and whatever follows, as long as no
   header after it carries our nonce too.
   */
  lemma PrintedDumpReadsBack(d: Dump, before: seq<Line>, body: seq<Line>, after: seq<Line>, known: Known)
    requires Printable(d, known)
    requires WithoutNoise(body) == PartLines(d.parts) + [EndLine(d.end, d.nonce.value, d.state.value)]
    requires forall line | line in body + after :: !Carries(line, d.nonce.value)
    ensures Parsed(before + [HeaderLine(d, d.nonce.value, d.state.value)] + body + after, d.nonce, known) == Some(d)
  {
    hide HeaderLine, ChosenStart, ReadLines, FieldsOf, PartLines, EndLine, WithoutNoise;
    var nonce, state := d.nonce.value, d.state.value;
    var header := HeaderLine(d, nonce, state);
    var rest := body + after;
    var lines := before + [header] + rest;
    assert before + [header] + body + after == lines;
    HeaderReadsBack(d, nonce, state);
    HeaderCarries(d, nonce, state);
    OursIsLast(before, header, rest, nonce);
    WovenBlockReadsBack(d, body, after, known);
    assert lines[|before|] == header && lines[|before| + 1..] == rest;
    hide Printable, Carries;
  }
}
