/**
 The dump parser (src/dumpParse.ts). A line is the list of its words: splitting
 the answer into trimmed, non-empty lines and lines at blanks is done before.
 `known` stands for the registry of stat keys.
 */
module DumpParse {
  import opened Wrappers
  import opened Seqs
  import opened DumpText

  datatype Side = A | B
  datatype Winner = Won(side: Side) | Draw
  datatype Why = Gg | Disconnect | Staff
  datatype State = Pending | Live | Ended

  datatype DumpMap = DumpMap(name: string, a: int, b: int)
  datatype Player = Player(steamid: string, team: Side, joinedMap: nat, sidmg: int, sikill: int, ck: int, ff: int,
                           rev: int)
  datatype Skill = Skill(steamid: string, stats: map<string, int>)

  /** What the lines of a block have added up to so far. */
  datatype Parts = Parts(maps: seq<DumpMap>, players: seq<Player>, skills: seq<Skill>, abandoners: seq<string>)

  datatype End = End(winner: Winner, totalA: int, totalB: int, forfeit: Option<Side>, forfeitWhy: Option<Why>)

  datatype Dump = Dump(
    matchId: int, skillDetect: bool, parts: Parts, end: End,
    nonce: Option<string>, state: Option<State>)

  type Line = seq<Word>
  type Known = string -> bool

  // ---------- which block is read ----------

  /** A line that starts with "DUMP " and goes on. */
  predicate IsHeader(line: Line) {
    |line| >= 2 && line[0] == "DUMP"
  }

  function FieldsOf(line: Line): Fields {
    if line == [] then map[] else Kv(line[1..])
  }

  predicate Carries(line: Line, nonce: string) {
    IsHeader(line) && Get(FieldsOf(line), "nonce") == Some(nonce)
  }

  predicate CarriesAny(line: Line) {
    IsHeader(line) && Get(FieldsOf(line), "nonce").Some?
  }

  /** Where the block starts, and our nonce if it carries it. */
  datatype Start = Start(at: nat, nonce: Option<string>)

  function FirstHeader(lines: seq<Line>): (r: Option<nat>)
    ensures r.Some? ==>
      r.value < |lines| && IsHeader(lines[r.value]) && forall i | 0 <= i < r.value :: !IsHeader(lines[i])
    ensures r.None? ==> forall i | 0 <= i < |lines| :: !IsHeader(lines[i])
  {
    if lines == [] then None
    else
      var r := FirstHeader(lines[..|lines| - 1]);
      if r.Some? then r else if IsHeader(lines[|lines| - 1]) then Some(|lines| - 1) else None
  }

  function LastCarrying(lines: seq<Line>, nonce: string): (r: Option<nat>)
    ensures r.Some? ==>
      && r.value < |lines| && Carries(lines[r.value], nonce)
      && forall i | r.value < i < |lines| :: !Carries(lines[i], nonce)
    ensures r.None? ==> forall i | 0 <= i < |lines| :: !Carries(lines[i], nonce)
  {
    if lines == [] then None
    else if Carries(lines[|lines| - 1], nonce) then Some(|lines| - 1)
    else LastCarrying(lines[..|lines| - 1], nonce)
  }

  predicate SomeNonce(lines: seq<Line>) {
    exists line | line in lines :: CarriesAny(line)
  }

  /** Our last block; the first of all when no header has a nonce; else none. */
  function ChosenStart(lines: seq<Line>, ours: Option<string>): (r: Option<Start>)
    ensures r.Some? ==> r.value.at < |lines| && IsHeader(lines[r.value.at])
  {
    var first := FirstHeader(lines);
    if first.None? then None
    else if ours.None? then Some(Start(first.value, None))
    else
      var last := LastCarrying(lines, ours.value);
      if last.Some? then Some(Start(last.value, ours))
      else if SomeNonce(lines) then None
      else Some(Start(first.value, None))
  }

  // ---------- the lines of a block ----------

  predicate IsSteamId(id: Option<string>) {
    id.Some? && |id.value| == 17 && AllDigits(id.value)
  }

  function SideOf(s: Option<string>): Option<Side> {
    if s == Some("a") then Some(A) else if s == Some("b") then Some(B) else None
  }

  function WinnerOf(s: Option<string>): Option<Winner> {
    if s == Some("draw") then Some(Draw)
    else if SideOf(s).Some? then Some(Won(SideOf(s).value))
    else None
  }

  function StateOf(s: Option<string>): Option<State> {
    if s == Some("pending") then Some(Pending)
    else if s == Some("live") then Some(Live)
    else if s == Some("ended") then Some(Ended)
    else None
  }

  function ReadMap(f: Fields): Option<DumpMap> {
    var a, b := IntOf(Get(f, "a")), IntOf(Get(f, "b"));
    if Get(f, "map").GetOr("") == "" || a.None? || b.None? then None
    else Some(DumpMap(f["map"], a.value, b.value))
  }

  function ReadStat(f: Fields): Option<Player> {
    var id, team := Get(f, "steamid"), SideOf(Get(f, "team"));
    var sidmg, sikill, ck, ff, rev :=
      IntOf(Get(f, "sidmg")), IntOf(Get(f, "sikill")), IntOf(Get(f, "ck")), IntOf(Get(f, "ff")), IntOf(Get(f, "rev"));
    var joined := IntOf(Get(f, "joined_map")).GetOr(0);
    if !IsSteamId(id) || team.None? || sidmg.None? || sikill.None? || ck.None? || ff.None? || rev.None? then None
    else
      Some(Player(id.value, team.value, if joined < 0 then 0 else joined,
                  sidmg.value, sikill.value, ck.value, ff.value, rev.value))
  }

  /** The keys the registry knows; one of them with no number refuses the answer. */
  function ReadSkill(f: Fields, known: Known): Option<Skill> {
    var id := Get(f, "steamid");
    if !IsSteamId(id) then None
    else if exists k | k in f :: k != "steamid" && known(k) && IntOf(Some(f[k])).None? then None
    else Some(Skill(id.value, map k | k in f && k != "steamid" && known(k) :: IntOf(Some(f[k])).GetOr(0)))
  }

  /** The END line of the block that opened with `nonce` and `state`. */
  function ReadEnd(f: Fields, nonce: Option<string>, state: Option<State>): Option<End> {
    var a, b, winner := IntOf(Get(f, "a")), IntOf(Get(f, "b")), WinnerOf(Get(f, "winner"));
    if a.None? || b.None? || winner.None? then None
    else if nonce.Some? && (Get(f, "nonce") != nonce || StateOf(Get(f, "state")) != state) then None
    else
      var named := SideOf(Get(f, "forfeit"));
      var forfeit := if named.Some? && winner.value != Draw && winner.value != Won(named.value) then named else None;
      var why := if forfeit.None? then None
                 else if Get(f, "forfeit_why") == Some("disconnect") then Some(Disconnect)
                 else if Get(f, "forfeit_why") == Some("staff") then Some(Staff)
                 else Some(Gg);
      Some(End(winner.value, a.value, b.value, forfeit, why))
  }

  datatype Progress = Reading(parts: Parts) | Closed(parts: Parts, end: End) | Refused

  function Verb(line: Line): string {
    if line == [] then "" else line[0]
  }

  function ReadLine(parts: Parts, line: Line, nonce: Option<string>, state: Option<State>, known: Known): Progress {
    var f := FieldsOf(line);
    if Verb(line) == "MAP" then
      var m := ReadMap(f);
      if m.None? then Refused else Reading(parts.(maps := parts.maps + [m.value]))
    else if Verb(line) == "STAT" then
      var p := ReadStat(f);
      if p.None? then Refused else Reading(parts.(players := parts.players + [p.value]))
    else if Verb(line) == "SKILL" then
      var s := ReadSkill(f, known);
      if s.None? then Refused else Reading(parts.(skills := parts.skills + [s.value]))
    else if Verb(line) == "ABANDON" then
      var id := Get(f, "steamid");
      if !IsSteamId(id) then Refused
      else if id.value in parts.abandoners then Reading(parts)
      else Reading(parts.(abandoners := parts.abandoners + [id.value]))
    else if Verb(line) == "END" then
      var end := ReadEnd(f, nonce, state);
      if end.None? then Refused else Closed(parts, end.value)
    else Reading(parts)
  }

  /** The lines after the header, up to the END line or the first bad one. */
  function ReadLines(parts: Parts, lines: seq<Line>, nonce: Option<string>, state: Option<State>,
                     known: Known): Progress
    decreases |lines|
  {
    if lines == [] then Reading(parts)
    else
      var next := ReadLine(parts, lines[0], nonce, state, known);
      if next.Reading? then ReadLines(next.parts, lines[1..], nonce, state, known) else next
  }

  const Nothing := Parts([], [], [], [])

  ghost function Parsed(lines: seq<Line>, ours: Option<string>, known: Known): Option<Dump> {
    var start := ChosenStart(lines, ours);
    if start.None? then None else ParsedFrom(lines, start.value, known)
  }

  ghost function ParsedFrom(lines: seq<Line>, start: Start, known: Known): Option<Dump>
    requires start.at < |lines|
  {
    var f := FieldsOf(lines[start.at]);
    var matchId := IntOf(Get(f, "match"));
    var state := if start.nonce.Some? then StateOf(Get(f, "state")) else None;
    if matchId.None? || (start.nonce.Some? && state.None?) then None
    else
      var block := ReadLines(Nothing, lines[start.at + 1..], start.nonce, state, known);
      if block.Closed? then
        Some(Dump(matchId.value, Get(f, "skilldetect") == Some("1"), block.parts, block.end, start.nonce, state))
      else None
  }

  // ---------- parseDump ----------

  type Header = (nat, Option<string>)

  /** Where the headers are, in order, each with its nonce. */
  ghost predicate HeadersOf(headers: seq<Header>, lines: seq<Line>) {
    && (forall h | h in headers :: h.0 < |lines| && IsHeader(lines[h.0]) && h.1 == Get(FieldsOf(lines[h.0]), "nonce"))
    && (forall j | 0 <= j < |lines| && IsHeader(lines[j]) :: (j, Get(FieldsOf(lines[j]), "nonce")) in headers)
    && (forall a, b | 0 <= a < b < |headers| :: headers[a].0 < headers[b].0)
  }

  method FindHeaders(lines: seq<Line>) returns (headers: seq<Header>)
    ensures HeadersOf(headers, lines)
  {
    headers := [];
    for i := 0 to |lines|
      invariant HeadersOf(headers, lines[..i])
    {
      TakeOneMore(lines, i);
      assert forall a | 0 <= a < |headers| :: headers[a] in headers;
      if IsHeader(lines[i]) {
        headers := headers + [(i, Get(FieldsOf(lines[i]), "nonce"))];
      }
    }
    assert lines[..|lines|] == lines;
  }

  method FindStart(lines: seq<Line>, ours: Option<string>) returns (start: Option<Start>)
    ensures start == ChosenStart(lines, ours)
  {
    var headers := FindHeaders(lines);
    FirstIsFirst(headers, lines);
    if headers == [] { return None; }
    start := Some(Start(headers[0].0, None));
    if ours.None? { return; }
    var last := LastOf(headers, ours);
    LastIsLast(headers, lines, ours.value);
    if last.Some? {
      start := Some(Start(headers[last.value].0, ours));
    } else {
      SomeNonceIff(headers, lines);
      if exists h | h in headers :: h.1.Some? { start := None; }
    }
  }

  lemma FirstIsFirst(headers: seq<Header>, lines: seq<Line>)
    requires HeadersOf(headers, lines)
    ensures FirstHeader(lines) == if headers == [] then None else Some(headers[0].0)
  {
    var first := FirstHeader(lines);
    if headers != [] { assert headers[0] in headers; }
    if first.Some? {
      var h := (first.value, Get(FieldsOf(lines[first.value]), "nonce"));
      assert h in headers;
      var i :| 0 <= i < |headers| && headers[i] == h;
    }
  }

  lemma LastIsLast(headers: seq<Header>, lines: seq<Line>, nonce: string)
    requires HeadersOf(headers, lines)
    ensures
      var last := LastOf(headers, Some(nonce));
      LastCarrying(lines, nonce) == if last.Some? then Some(headers[last.value].0) else None
  {
    var last := LastOf(headers, Some(nonce));
    var found := LastCarrying(lines, nonce);
    if last.Some? { assert headers[last.value] in headers; }
    if found.Some? {
      var h := (found.value, Get(FieldsOf(lines[found.value]), "nonce"));
      assert h in headers;
      var i :| 0 <= i < |headers| && headers[i] == h;
    }
  }

  lemma SomeNonceIff(headers: seq<Header>, lines: seq<Line>)
    requires HeadersOf(headers, lines)
    ensures SomeNonce(lines) <==> exists h :: h in headers && h.1.Some?
  {
    if line :| line in lines && CarriesAny(line) {
      var j :| 0 <= j < |lines| && lines[j] == line;
      assert (j, Get(FieldsOf(lines[j]), "nonce")) in headers;
    }
    if h :| h in headers && h.1.Some? { assert CarriesAny(lines[h.0]); }
  }

  function LastOf(headers: seq<(nat, Option<string>)>, nonce: Option<string>): (r: Option<nat>)
    ensures r.Some? ==>
      r.value < |headers| && headers[r.value].1 == nonce && forall i | r.value < i < |headers| :: headers[i].1 != nonce
    ensures r.None? ==> forall i | 0 <= i < |headers| :: headers[i].1 != nonce
  {
    if headers == [] then None
    else if headers[|headers| - 1].1 == nonce then Some(|headers| - 1)
    else LastOf(headers[..|headers| - 1], nonce)
  }

  method ReadBlock(lines: seq<Line>, nonce: Option<string>, state: Option<State>, known: Known)
    returns (block: Progress)
    ensures block == ReadLines(Nothing, lines, nonce, state, known)
  {
    var maps: seq<DumpMap>, players: seq<Player>, skills: seq<Skill>, abandoners: seq<string> := [], [], [], [];
    for i := 0 to |lines|
      invariant ReadLines(Nothing, lines, nonce, state, known)
             == ReadLines(Parts(maps, players, skills, abandoners), lines[i..], nonce, state, known)
    {
      assert lines[i..][0] == lines[i] && lines[i..][1..] == lines[i + 1..];
      var verb := Verb(lines[i]);
      var f := FieldsOf(lines[i]);
      if verb == "MAP" {
        var m := ReadMap(f);
        if m.None? { return Refused; }
        maps := maps + [m.value];
      } else if verb == "STAT" {
        var p := ReadStat(f);
        if p.None? { return Refused; }
        players := players + [p.value];
      } else if verb == "SKILL" {
        var s := ReadSkill(f, known);
        if s.None? { return Refused; }
        skills := skills + [s.value];
      } else if verb == "ABANDON" {
        var id := Get(f, "steamid");
        if !IsSteamId(id) { return Refused; }
        if id.value !in abandoners { abandoners := abandoners + [id.value]; }
      } else if verb == "END" {
        var end := ReadEnd(f, nonce, state);
        if end.None? { return Refused; }
        return Closed(Parts(maps, players, skills, abandoners), end.value);
      }
    }
    return Reading(Parts(maps, players, skills, abandoners));
  }

  method ParseDump(lines: seq<Line>, ours: Option<string>, known: Known) returns (r: Option<Dump>)
    ensures r == Parsed(lines, ours, known)
  {
    var start := FindStart(lines, ours);
    if start.None? { return None; }
    var at, nonce := start.value.at, start.value.nonce;
    var f := FieldsOf(lines[at]);
    var matchId := IntOf(Get(f, "match"));
    if matchId.None? { return None; }
    var state := None;
    if nonce.Some? {
      state := StateOf(Get(f, "state"));
      if state.None? { return None; }
    }
    var block := ReadBlock(lines[at + 1..], nonce, state, known);
    if !block.Closed? { return None; }
    r := Some(Dump(matchId.value, Get(f, "skilldetect") == Some("1"), block.parts, block.end, nonce, state));
  }
}
