/** Exactly which answers the dump parser (src/dumpParse.ts) accepts, said of their lines and fields. */
module DumpAccepts {
  import opened Wrappers
  import opened DumpText
  import opened DumpParse

  // ---------- fields ----------

  /** A whole number in plain digits, perhaps after a minus sign. */
  predicate IsNumber(s: string) {
    || (s != "" && forall i | 0 <= i < |s| :: '0' <= s[i] <= '9')
    || (|s| > 1 && s[0] == '-' && forall i | 1 <= i < |s| :: '0' <= s[i] <= '9')
  }

  predicate Number(f: Fields, key: string) {
    key in f && IsNumber(f[key])
  }

  predicate NamesPlayer(f: Fields) {
    "steamid" in f && |f["steamid"]| == 17 && forall i | 0 <= i < 17 :: '0' <= f["steamid"][i] <= '9'
  }

  lemma NumberReads(f: Fields, key: string)
    ensures IntOf(Get(f, key)).Some? <==> Number(f, key)
  {
    if key in f { NumberIs(f[key]); }
  }

  lemma NumberIs(s: string)
    ensures IntOf(Some(s)).Some? <==> IsNumber(s)
  {
    if s != "" && s[0] == '-' {
      assert forall i | 0 <= i < |s[1..]| :: s[1..][i] == s[i + 1];
      if IsNumber(s) { assert AllDigits(s[1..]); }
      if |s| > 1 && AllDigits(s[1..]) {
        forall i | 1 <= i < |s| ensures '0' <= s[i] <= '9' { assert IsDigit(s[1..][i - 1]); }
      }
    } else if AllDigits(s) {
      assert forall i | 0 <= i < |s| :: IsDigit(s[i]);
    }
  }

  lemma PlayerReads(f: Fields)
    ensures IsSteamId(Get(f, "steamid")) <==> NamesPlayer(f)
  {
    if "steamid" in f && AllDigits(f["steamid"]) {
      assert forall i | 0 <= i < |f["steamid"]| :: IsDigit(f["steamid"][i]);
    }
  }

  // ---------- lines ----------

  /** A line before the END says what its kind has to; lines of no kind say nothing. */
  ghost predicate GoodLine(line: Line, known: Known) {
    var f := FieldsOf(line);
    && (Verb(line) == "MAP" ==> "map" in f && f["map"] != "" && Number(f, "a") && Number(f, "b"))
    && (Verb(line) == "STAT" ==>
          && NamesPlayer(f) && "team" in f && (f["team"] == "a" || f["team"] == "b")
          && Number(f, "sidmg") && Number(f, "sikill") && Number(f, "ck") && Number(f, "ff") && Number(f, "rev"))
    && (Verb(line) == "SKILL" ==> NamesPlayer(f) && forall k | k in f && k != "steamid" && known(k) :: IsNumber(f[k]))
    && (Verb(line) == "ABANDON" ==> NamesPlayer(f))
  }

  predicate SaysState(f: Fields) {
    "state" in f && (f["state"] == "pending" || f["state"] == "live" || f["state"] == "ended")
  }

  /** An END line has the score and the winner, and repeats the nonce and the state of a header that has one. */
  predicate GoodEnd(f: Fields, header: Fields, nonce: Option<string>) {
    && Number(f, "a") && Number(f, "b")
    && "winner" in f && (f["winner"] == "a" || f["winner"] == "b" || f["winner"] == "draw")
    && (nonce.Some? ==>
          "nonce" in f && f["nonce"] == nonce.value && Get(f, "state") == Get(header, "state"))
  }

  lemma MapReads(f: Fields)
    ensures ReadMap(f).Some? <==> "map" in f && f["map"] != "" && Number(f, "a") && Number(f, "b")
  {
    NumberReads(f, "a");
    NumberReads(f, "b");
    hide IntOf, IsNumber;
  }

  lemma StatReads(f: Fields)
    ensures ReadStat(f).Some? <==>
      && NamesPlayer(f) && "team" in f && (f["team"] == "a" || f["team"] == "b")
      && Number(f, "sidmg") && Number(f, "sikill") && Number(f, "ck") && Number(f, "ff") && Number(f, "rev")
  {
    hide IntOf, Number, NamesPlayer, IsSteamId;
    PlayerReads(f);
    NumberReads(f, "sidmg");
    NumberReads(f, "sikill");
    NumberReads(f, "ck");
    NumberReads(f, "ff");
    NumberReads(f, "rev");
  }

  lemma SkillReads(f: Fields, known: Known)
    ensures ReadSkill(f, known).Some? <==>
      NamesPlayer(f) && forall k | k in f && k != "steamid" && known(k) :: IsNumber(f[k])
  {
    PlayerReads(f);
    forall k | k in f ensures IntOf(Some(f[k])).Some? <==> IsNumber(f[k]) { NumberIs(f[k]); }
    hide IntOf, IsNumber, NamesPlayer, IsSteamId;
  }

  lemma LineReadsIff(parts: Parts, line: Line, nonce: Option<string>, state: Option<State>, known: Known)
    requires Verb(line) != "END"
    ensures !ReadLine(parts, line, nonce, state, known).Closed?
    ensures ReadLine(parts, line, nonce, state, known).Reading? <==> GoodLine(line, known)
  {
    hide FieldsOf, Verb, IsSteamId, NamesPlayer, ReadMap, ReadStat, ReadSkill, Number, IsNumber;
    var f := FieldsOf(line);
    PlayerReads(f);
    MapReads(f);
    StatReads(f);
    SkillReads(f, known);
  }

  lemma NumbersRead(f: Fields)
    ensures forall key :: IntOf(Get(f, key)).Some? <==> Number(f, key)
  {
    forall key ensures IntOf(Get(f, key)).Some? <==> Number(f, key) { NumberReads(f, key); }
  }

  lemma StateReads(f: Fields, header: Fields)
    requires SaysState(header)
    ensures StateOf(Get(header, "state")).Some?
    ensures StateOf(Get(f, "state")) == StateOf(Get(header, "state")) <==> Get(f, "state") == Get(header, "state")
  {
  }

  lemma EndReadsIff(f: Fields, header: Fields, nonce: Option<string>, state: Option<State>)
    requires nonce.Some? ==> SaysState(header) && state == StateOf(Get(header, "state"))
    ensures ReadEnd(f, nonce, state).Some? <==> GoodEnd(f, header, nonce)
  {
    NumbersRead(f);
    if nonce.Some? { StateReads(f, header); }
    hide IntOf, IsNumber, StateOf;
  }

  /** The first END line, and good lines before it. */
  ghost predicate GoodBlock(lines: seq<Line>, header: Fields, nonce: Option<string>, known: Known, j: nat) {
    && j < |lines| && Verb(lines[j]) == "END" && GoodEnd(FieldsOf(lines[j]), header, nonce)
    && forall k | 0 <= k < j :: Verb(lines[k]) != "END" && GoodLine(lines[k], known)
  }

  lemma {:induction false} BlockClosesIff(parts: Parts, lines: seq<Line>, header: Fields, nonce: Option<string>,
                                          state: Option<State>, known: Known)
    requires nonce.Some? ==> SaysState(header) && state == StateOf(Get(header, "state"))
    ensures ReadLines(parts, lines, nonce, state, known).Closed? <==>
            exists j: nat :: GoodBlock(lines, header, nonce, known, j)
    decreases |lines|
  {
    hide ReadLine, GoodLine, GoodEnd, ReadEnd, SaysState;
    if lines != [] {
      var line, rest := lines[0], lines[1..];
      var next := ReadLine(parts, line, nonce, state, known);
      if Verb(line) == "END" {
        EndLineReads(parts, line, nonce, state, known);
        EndReadsIff(FieldsOf(line), header, nonce, state);
        if GoodEnd(FieldsOf(line), header, nonce) { assert GoodBlock(lines, header, nonce, known, 0); }
      } else {
        LineReadsIff(parts, line, nonce, state, known);
        if next.Reading? {
          BlockClosesIff(next.parts, rest, header, nonce, state, known);
          MoreOfBlock(lines, header, nonce, known);
        }
      }
    }
  }

  lemma EndLineReads(parts: Parts, line: Line, nonce: Option<string>, state: Option<State>, known: Known)
    requires Verb(line) == "END"
    ensures
      var next, end := ReadLine(parts, line, nonce, state, known), ReadEnd(FieldsOf(line), nonce, state);
      !next.Reading? && (next.Closed? <==> end.Some?)
  {
    hide ReadEnd, ReadMap, ReadStat, ReadSkill;
  }

  lemma MoreOfBlock(lines: seq<Line>, header: Fields, nonce: Option<string>, known: Known)
    requires lines != [] && Verb(lines[0]) != "END" && GoodLine(lines[0], known)
    ensures (exists j: nat :: GoodBlock(lines, header, nonce, known, j)) <==>
            exists j: nat :: GoodBlock(lines[1..], header, nonce, known, j)
  {
    hide GoodLine, GoodEnd;
    if j: nat :| GoodBlock(lines, header, nonce, known, j) {
      assert GoodBlock(lines[1..], header, nonce, known, j - 1);
    }
    if j: nat :| GoodBlock(lines[1..], header, nonce, known, j) {
      forall k | 0 <= k < j + 1 ensures Verb(lines[k]) != "END" && GoodLine(lines[k], known) {
        if k > 0 { assert lines[1..][k - 1] == lines[k]; }
      }
      assert GoodBlock(lines, header, nonce, known, j + 1);
    }
  }

  // ---------- the answer ----------

  predicate OpensBlock(line: Line) {
    |line| >= 2 && line[0] == "DUMP"
  }

  predicate HasNonce(line: Line, nonce: string) {
    OpensBlock(line) && Get(FieldsOf(line), "nonce") == Some(nonce)
  }

  /** The header that is read, and whether it is asked for our nonce: the last one that carries it; or the first of
      all, when none was asked for or no header has one. */
  ghost predicate Reads(lines: seq<Line>, ours: Option<string>, i: nat, nonce: Option<string>) {
    && i < |lines| && OpensBlock(lines[i])
    && if ours.Some? && nonce == ours then
         HasNonce(lines[i], ours.value) && forall k | i < k < |lines| :: !HasNonce(lines[k], ours.value)
       else
         && nonce.None? && (forall k | 0 <= k < i :: !OpensBlock(lines[k]))
         && (ours.Some? ==> forall k, n | 0 <= k < |lines| :: !HasNonce(lines[k], n))
  }

  lemma ReadsIs(lines: seq<Line>, ours: Option<string>, i: nat, nonce: Option<string>)
    ensures Reads(lines, ours, i, nonce) <==> ChosenStart(lines, ours) == Some(Start(i, nonce))
  {
    var first := FirstHeader(lines);
    if ours.Some? {
      var last := LastCarrying(lines, ours.value);
      NonceIs(lines);
      assert last.Some? ==> HasNonce(lines[last.value], ours.value);
      hide FirstHeader, LastCarrying, SomeNonce;
      if Reads(lines, ours, i, nonce) {
        if nonce == ours {
          assert last == Some(i) by { assert Carries(lines[i], ours.value); }
        } else {
          assert first == Some(i);
        }
      }
    } else {
      hide FirstHeader;
      assert Reads(lines, ours, i, nonce) ==> first == Some(i);
    }
  }

  lemma NonceIs(lines: seq<Line>)
    ensures SomeNonce(lines) <==> exists k, n :: 0 <= k < |lines| && HasNonce(lines[k], n)
  {
    if line :| line in lines && CarriesAny(line) {
      var k :| 0 <= k < |lines| && lines[k] == line;
      assert HasNonce(lines[k], Get(FieldsOf(line), "nonce").value);
    }
    if k, n :| 0 <= k < |lines| && HasNonce(lines[k], n) { assert CarriesAny(lines[k]); }
  }

  /** It says of which match it is, and under our nonce in which state that is. */
  predicate GoodHeader(f: Fields, nonce: Option<string>) {
    Number(f, "match") && (nonce.Some? ==> SaysState(f))
  }

  ghost predicate BlockAfter(lines: seq<Line>, i: nat, nonce: Option<string>, known: Known, j: nat) {
    i < |lines| && GoodBlock(lines[i + 1..], FieldsOf(lines[i]), nonce, known, j)
  }

  /**
   An answer is accepted exactly when a header is read, it is good, and what follows it up to the first END line
   is too.
   */
  lemma AcceptedIff(lines: seq<Line>, ours: Option<string>, known: Known)
    ensures Parsed(lines, ours, known).Some? <==>
      exists i: nat, nonce, j: nat ::
        Reads(lines, ours, i, nonce) && GoodHeader(FieldsOf(lines[i]), nonce) && BlockAfter(lines, i, nonce, known, j)
  {
    var start := ChosenStart(lines, ours);
    hide ChosenStart, Reads, BlockAfter, ReadLines, FieldsOf;
    forall i: nat, nonce ensures Reads(lines, ours, i, nonce) <==> start == Some(Start(i, nonce)) {
      ReadsIs(lines, ours, i, nonce);
    }
    if start.Some? {
      var i, nonce := start.value.at, start.value.nonce;
      ParsedFromIff(lines, start.value, known);
      if j: nat :| BlockAfter(lines, i, nonce, known, j) {
        assert Reads(lines, ours, i, nonce);
      }
    }
  }

  lemma ParsedFromIff(lines: seq<Line>, start: Start, known: Known)
    requires start.at < |lines|
    ensures
      var f := FieldsOf(lines[start.at]);
      ParsedFrom(lines, start, known).Some? <==>
        GoodHeader(f, start.nonce)
        && exists j: nat :: BlockAfter(lines, start.at, start.nonce, known, j)
  {
    hide GoodBlock, ReadLines, FieldsOf;
    var f := FieldsOf(lines[start.at]);
    NumberReads(f, "match");
    if GoodHeader(f, start.nonce) {
      var state := if start.nonce.Some? then StateOf(Get(f, "state")) else None;
      BlockClosesIff(Nothing, lines[start.at + 1..], f, start.nonce, state, known);
      SameBlocks(lines, start.at, start.nonce, known);
    }
  }

  lemma SameBlocks(lines: seq<Line>, i: nat, nonce: Option<string>, known: Known)
    requires i < |lines|
    ensures
      var rest, f := lines[i + 1..], FieldsOf(lines[i]);
      (exists j: nat :: BlockAfter(lines, i, nonce, known, j)) <==>
      exists j: nat :: GoodBlock(rest, f, nonce, known, j)
  {
    hide GoodBlock, FieldsOf;
    var rest, f := lines[i + 1..], FieldsOf(lines[i]);
    if j: nat :| GoodBlock(rest, f, nonce, known, j) { assert BlockAfter(lines, i, nonce, known, j); }
  }
}
