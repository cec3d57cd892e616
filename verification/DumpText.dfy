/** Words of a dump line (kv and intOf in src/dumpParse.ts): `key=value` fields and whole numbers. */
module DumpText {
  import opened Wrappers

  type Word = string

  // ---------- whole numbers ----------

  predicate IsDigit(c: char) {
    '0' <= c <= '9'
  }

  predicate AllDigits(s: string) {
    forall i | 0 <= i < |s| :: IsDigit(s[i])
  }

  function Value(s: string): nat
    requires AllDigits(s)
  {
    if s == [] then 0 else Value(s[..|s| - 1]) * 10 + (s[|s| - 1] as int - '0' as int)
  }

  /** An optional minus sign and at least one digit, or nothing. */
  function IntOf(s: Option<string>): Option<int> {
    if s.None? || s.value == "" then None
    else if s.value[0] == '-' then
      if |s.value| > 1 && AllDigits(s.value[1..]) then Some(0 - Value(s.value[1..])) else None
    else if AllDigits(s.value) then Some(Value(s.value))
    else None
  }

  function NatText(n: nat): (s: string)
    ensures s != "" && AllDigits(s)
  {
    var last := ('0' as int + n % 10) as char;
    if n < 10 then [last] else NatText(n / 10) + [last]
  }

  function IntText(n: int): string {
    if n < 0 then "-" + NatText(-n) else NatText(n)
  }

  lemma {:induction false} NatTextReadsBack(n: nat)
    ensures Value(NatText(n)) == n
    decreases n
  {
    var s := NatText(n);
    var last := ('0' as int + n % 10) as char;
    if n < 10 {
      assert s[..|s| - 1] == "";
    } else {
      NatTextReadsBack(n / 10);
      assert s[..|s| - 1] == NatText(n / 10);
    }
  }

  lemma IntTextReadsBack(n: int)
    ensures IntOf(Some(IntText(n))) == Some(n)
  {
    if n < 0 {
      NatTextReadsBack(-n);
      assert IntText(n)[1..] == NatText(-n);
    } else {
      NatTextReadsBack(n);
      assert IsDigit(NatText(n)[0]);
    }
  }

  // ---------- fields ----------

  type Fields = map<string, string>

  /** The place of the first '=', or the length. */
  function Equals(word: Word): (i: nat)
    ensures i <= |word| && (i < |word| ==> word[i] == '=') && forall j | 0 <= j < i :: word[j] != '='
  {
    if word == "" || word[0] == '=' then 0 else 1 + Equals(word[1..])
  }

  /** A word with no '=', or nothing before it, is skipped; the last of a repeated key wins. */
  function With(fields: Fields, word: Word): Fields {
    var eq := Equals(word);
    if 0 < eq < |word| then fields[word[..eq] := word[eq + 1..]] else fields
  }

  function Kv(words: seq<Word>): Fields {
    if words == [] then map[] else With(Kv(words[..|words| - 1]), words[|words| - 1])
  }

  function Get(fields: Fields, key: string): Option<string> {
    if key in fields then Some(fields[key]) else None
  }

  method ReadFields(words: seq<Word>) returns (fields: Fields)
    ensures fields == Kv(words)
  {
    fields := map[];
    for i := 0 to |words|
      invariant fields == Kv(words[..i])
    {
      assert words[..i + 1][..i] == words[..i];
      var eq := Equals(words[i]);
      if 0 < eq < |words[i]| { fields := fields[words[i][..eq] := words[i][eq + 1..]]; }
    }
    assert words[..|words|] == words;
  }

  predicate IsKey(key: string) {
    key != "" && '=' !in key
  }

  function Field(key: string, value: string): Word {
    key + "=" + value
  }

  lemma OneMoreField(words: seq<Word>, key: string, value: string)
    requires IsKey(key)
    ensures Kv(words + [Field(key, value)]) == Kv(words)[key := value]
  {
    var word := Field(key, value);
    var eq := Equals(word);
    assert word[|key|] == '=';
    assert forall j | 0 <= j < |key| :: word[j] == key[j] && key[j] in key;
    assert eq == |key|;
    assert word[..eq] == key && word[eq + 1..] == value;
    assert (words + [word])[..|words|] == words;
  }
}
