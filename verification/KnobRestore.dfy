/**
 The knobs panel's prediction (src/balanceControl.ts): what the servers should
 run, what their fingerprint will then be, and the way back to a recorded patch.

 A draft's text becomes the text that is written as BalanceKnobs says.
 */
module KnobRestore {
  import opened Wrappers
  import opened Seqs
  import opened Sets
  import opened Inventories
  import opened BalanceKnobs

  /** An adjustable knob: the cvar it sets, its range and step, and the cvar it may not be above. */
  datatype Slider = Slider(cvar: string, knob: Knob, pairMax: Option<string>)

  type Values = map<string, string>

  datatype Panel = Panel(adjustable: seq<Slider>, ignored: set<string>, versionless: set<string>, texts: Texts)

  /** The exact text to write, or nothing. */
  function Normal(p: Panel, k: Slider, raw: string): Option<string> {
    match NormalizeKnobValue(k.knob, raw, p.texts)
    case Ok(text) => Some(text)
    case Err(_) => None
  }

  predicate Has(adjustable: seq<Slider>, cvar: string) {
    exists k | k in adjustable :: k.cvar == cvar
  }

  ghost predicate CvarsDiffer(knobs: seq<Slider>) {
    forall i, j | 0 <= i < j < |knobs| :: knobs[i].cvar != knobs[j].cvar
  }

  /** What loadBalanceKnobs checks: each knob, no cvar twice, and pairs of adjustable knobs. */
  ghost predicate WellFormed(p: Panel) {
    && (forall k | k in p.adjustable :: Validated(k.knob, p.texts))
    && CvarsDiffer(p.adjustable)
    && (forall k | k in p.adjustable && k.pairMax.Some? :: Has(p.adjustable, k.pairMax.value))
  }

  function KnobKeys(p: Panel): set<Key> {
    set k | k in p.adjustable :: Cvar(k.cvar)
  }

  /** Values for every adjustable knob and nothing else. */
  ghost predicate Full(p: Panel, values: Values) {
    forall cvar :: cvar in values <==> Has(p.adjustable, cvar)
  }

  lemma KnobsHaveValues(p: Panel, values: Values)
    requires Full(p, values)
    ensures forall k | k in p.adjustable :: k.cvar in values
  {
    assert forall k | k in p.adjustable :: Has(p.adjustable, k.cvar);
  }

  // ---------- the prediction ----------

  /** The base, less ignored plugins, with every adjustable knob at its new value. */
  function Predicted(base: Inventory, p: Panel, values: Values): Inventory
    requires forall k | k in p.adjustable :: k.cvar in values
  {
    WithoutIgnored(base, p.ignored) + PartOf(p.adjustable, values)
  }

  method PredictInventory(base: Inventory, p: Panel, values: Values) returns (inv: Inventory)
    requires WellFormed(p) && forall k | k in p.adjustable :: k.cvar in values
    ensures inv == Predicted(base, p, values)
  {
    inv := SetKnobs(WithoutIgnored(base, p.ignored), p.adjustable, values);
  }

  method SetKnobs(start: Inventory, knobs: seq<Slider>, values: Values) returns (inv: Inventory)
    requires forall k | k in knobs :: k.cvar in values
    ensures inv == start + PartOf(knobs, values)
  {
    inv := start;
    NoKnobs(start, values);
    assert knobs[..0] == [] && knobs[..|knobs|] == knobs;
    hide PartOf;
    for i := 0 to |knobs|
      invariant inv == start + PartOf(knobs[..i], values)
    {
      OneMoreKnob(knobs, i, values);
      OverlayOneMore(start, PartOf(knobs[..i], values), Cvar(knobs[i].cvar), values[knobs[i].cvar]);
      inv := inv[Cvar(knobs[i].cvar) := values[knobs[i].cvar]];
    }
  }

  lemma NoKnobs(start: Inventory, values: Values)
    ensures start + PartOf([], values) == start
  {
  }

  lemma OverlayOneMore<K, V>(a: map<K, V>, over: map<K, V>, k: K, v: V)
    ensures (a + over)[k := v] == a + over[k := v]
  {
  }

  lemma OneMoreKnob(knobs: seq<Slider>, i: nat, values: Values)
    requires i < |knobs| && forall k | k in knobs :: k.cvar in values
    ensures PartOf(knobs[..i + 1], values) == PartOf(knobs[..i], values)[Cvar(knobs[i].cvar) := values[knobs[i].cvar]]
  {
    TakeOneMore(knobs, i);
  }

  /** What a rollout cannot change. */
  function WithoutKnobs(inv: Inventory, p: Panel): Inventory {
    WithoutIgnored(inv, p.ignored) - KnobKeys(p)
  }

  predicate SameButKnobs(a: Inventory, b: Inventory, p: Panel) {
    FingerprintOf(WithoutKnobs(a, p), p.versionless) == FingerprintOf(WithoutKnobs(b, p), p.versionless)
  }

  /** The fingerprint a config is recorded under. */
  function RecordedFingerprint(inv: Inventory, p: Panel): Fingerprint {
    FingerprintOf(WithoutIgnored(inv, p.ignored), p.versionless)
  }

  /** The values as the inventory holds them. */
  function PartOf(knobs: seq<Slider>, values: Values): Inventory
    requires forall k | k in knobs :: k.cvar in values
  {
    map k | k in knobs :: Cvar(k.cvar) := values[k.cvar]
  }

  lemma PredictedParts(base: Inventory, p: Panel, values: Values)
    requires forall k | k in p.adjustable :: k.cvar in values
    ensures FingerprintOf(Predicted(base, p, values), p.versionless) ==
      FingerprintOf(WithoutKnobs(base, p), p.versionless) + PartOf(p.adjustable, values)
    ensures FingerprintOf(WithoutKnobs(base, p), p.versionless).Keys !! PartOf(p.adjustable, values).Keys
  {
  }

  lemma RecordedParts(inv: Inventory, p: Panel)
    ensures FingerprintOf(WithoutKnobs(inv, p), p.versionless) == RecordedFingerprint(inv, p) - KnobKeys(p)
    ensures forall key | key in KnobKeys(p) :: key in RecordedFingerprint(inv, p) <==> key in inv
    ensures forall key | key in KnobKeys(p) && key in inv :: RecordedFingerprint(inv, p)[key] == inv[key]
  {
  }

  lemma SameUnderOverlay<K, V>(a: map<K, V>, b: map<K, V>, over: map<K, V>)
    requires a.Keys !! over.Keys && b.Keys !! over.Keys
    ensures a + over == b + over <==> a == b
  {
    if a + over == b + over {
      assert a == (a + over) - over.Keys && b == (b + over) - over.Keys;
    }
  }

  lemma OverlayIs<K, V>(a: map<K, V>, over: map<K, V>, whole: map<K, V>)
    requires a.Keys !! over.Keys
    ensures a + over == whole <==> a == whole - over.Keys && forall k | k in over :: k in whole && whole[k] == over[k]
  {
    if a + over == whole { assert a == (a + over) - over.Keys; }
  }

  /**
   A server does not block exactly when, whatever values are written, it will report the
   fingerprint predicted from the base.
   */
  lemma NotBlockingIffPredictionHolds(base: Inventory, have: Inventory, p: Panel, values: Values)
    requires forall k | k in p.adjustable :: k.cvar in values
    ensures SameButKnobs(base, have, p)
       <==> FingerprintOf(Predicted(base, p, values), p.versionless) ==
            FingerprintOf(Predicted(have, p, values), p.versionless)
  {
    hide Predicted, WithoutKnobs, FingerprintOf, PartOf;
    PredictedParts(base, p, values);
    PredictedParts(have, p, values);
    SameUnderOverlay(FingerprintOf(WithoutKnobs(base, p), p.versionless),
                     FingerprintOf(WithoutKnobs(have, p), p.versionless), PartOf(p.adjustable, values));
  }

  // ---------- validateDraft ----------

  datatype DraftError =
    | NotAnObject
    | CurrentOutside(cvar: string)
    | NotAdjustable(cvar: string)
    | BadValue(cvar: string)
    | PairCrossed(cvar: string)

  /** A draft's values over the current ones, each as it is written. */
  predicate Drafted(p: Panel, raw: Values, k: Slider) {
    k.cvar in raw && Normal(p, k, raw[k.cvar]).Some?
  }

  ghost predicate IsDraft(p: Panel, raw: Values, current: Values, values: Values) {
    && values.Keys == current.Keys
    && forall k | k in p.adjustable && k.cvar in values ::
         Some(values[k.cvar]) == if Drafted(p, raw, k) then Normal(p, k, raw[k.cvar]) else Some(current[k.cvar])
  }

  /** No error a draft can have. */
  ghost predicate DraftIsSound(p: Panel, raw: Values, current: Values, values: Values)
    requires Full(p, current) && values.Keys == current.Keys && WellFormed(p)
  {
    && (forall k | k in p.adjustable :: Normal(p, k, if k.cvar in raw then raw[k.cvar] else current[k.cvar]).Some?)
    && (forall cvar | cvar in raw :: Has(p.adjustable, cvar))
    && PairsHold(p, values)
  }

  /** What is no number is above nothing. */
  predicate Above(p: Panel, a: string, b: string) {
    var x, y := p.texts.number(a), p.texts.number(b);
    x.Some? && y.Some? && x.value > y.value
  }

  predicate PairsHold(p: Panel, values: Values)
    requires forall k | k in p.adjustable :: k.cvar in values && (k.pairMax.Some? ==> k.pairMax.value in values)
  {
    forall k | k in p.adjustable && k.pairMax.Some? :: !Above(p, values[k.cvar], values[k.pairMax.value])
  }

  /** `raw` is None when the request held no object. */
  method ValidateDraft(p: Panel, raw: Option<Values>, current: Values) returns (values: Values, errors: seq<DraftError>)
    requires WellFormed(p) && Full(p, current)
    ensures raw.None? ==> values == current && errors == [NotAnObject]
    ensures values.Keys == current.Keys
    ensures raw.Some? ==>
      IsDraft(p, raw.value, current, values) && (errors == [] <==> DraftIsSound(p, raw.value, current, values))
  {
    if raw.None? { return current, [NotAnObject]; }
    var carried := CheckCarried(p, raw.value, current);
    var drafted;
    values, drafted := TakeDraft(p, raw.value, current);
    var strange := CheckNames(p, raw.value);
    var pairs := CheckPairs(p, values);
    errors := carried + strange + drafted + pairs;
  }

  /** A value the draft does not set goes to the servers all the same. */
  method CheckCarried(p: Panel, raw: Values, current: Values) returns (errors: seq<DraftError>)
    requires Full(p, current)
    ensures errors == [] <==> forall k | k in p.adjustable && k.cvar !in raw :: Normal(p, k, current[k.cvar]).Some?
  {
    errors := [];
    for i := 0 to |p.adjustable|
      invariant errors == [] <==>
        forall k | k in p.adjustable[..i] && k.cvar !in raw :: Normal(p, k, current[k.cvar]).Some?
    {
      TakeOneMore(p.adjustable, i);
      var k := p.adjustable[i];
      if k.cvar in raw { continue; }
      if Normal(p, k, current[k.cvar]).None? { errors := errors + [CurrentOutside(k.cvar)]; }
    }
    assert p.adjustable[..|p.adjustable|] == p.adjustable;
  }

  method CheckNames(p: Panel, raw: Values) returns (errors: seq<DraftError>)
    ensures errors == [] <==> forall cvar | cvar in raw :: Has(p.adjustable, cvar)
  {
    errors := [];
    var left := raw.Keys;
    while left != {}
      invariant left <= raw.Keys
      invariant errors == [] <==> forall cvar | cvar in raw.Keys - left :: Has(p.adjustable, cvar)
      decreases left
    {
      var cvar := Pick(left);
      left := left - {cvar};
      if !Has(p.adjustable, cvar) { errors := errors + [NotAdjustable(cvar)]; }
    }
  }

  /** Every value the draft sets for a knob can be written. */
  ghost predicate DraftWrites(p: Panel, raw: Values) {
    forall k | k in p.adjustable && k.cvar in raw :: Normal(p, k, raw[k.cvar]).Some?
  }

  method TakeDraft(p: Panel, raw: Values, current: Values) returns (values: Values, errors: seq<DraftError>)
    requires WellFormed(p) && Full(p, current)
    ensures IsDraft(p, raw, current, values)
    ensures errors == [] <==> DraftWrites(p, raw)
  {
    hide *;
    values, errors := current, [];
    NothingDrafted(p, raw, current);
    for i := 0 to |p.adjustable|
      invariant Drafting(p, raw, current, values, errors == [], i)
    {
      OneMoreDrafted(p, raw, current, values, errors == [], i);
      var bad;
      values, bad := TakeOne(p, raw, p.adjustable[i], values);
      errors := errors + bad;
    }
    EndOfDraft(p, raw, current, values, errors == []);
  }

  function DraftOne(p: Panel, raw: Values, k: Slider, start: Values): Values {
    var n := DraftValue(p, raw, k);
    if n.Some? then start[k.cvar := n.value] else start
  }

  predicate IsBad(p: Panel, raw: Values, k: Slider) {
    k.cvar in raw && DraftValue(p, raw, k).None?
  }

  method TakeOne(p: Panel, raw: Values, k: Slider, start: Values) returns (values: Values, errors: seq<DraftError>)
    ensures values == DraftOne(p, raw, k, start)
    ensures errors == [] <==> !IsBad(p, raw, k)
  {
    values, errors := start, [];
    if k.cvar !in raw { return; }
    var n := Normal(p, k, raw[k.cvar]);
    if n.Some? { values := values[k.cvar := n.value]; } else { errors := [BadValue(k.cvar)]; }
  }

  function DraftValues(p: Panel, raw: Values): (want: seq<Option<string>>)
    ensures |want| == |p.adjustable| && forall j | 0 <= j < |want| :: want[j] == DraftValue(p, raw, p.adjustable[j])
  {
    seq(|p.adjustable|, j requires 0 <= j < |p.adjustable| => DraftValue(p, raw, p.adjustable[j]))
  }

  function DraftValue(p: Panel, raw: Values, k: Slider): Option<string> {
    if k.cvar in raw then Normal(p, k, raw[k.cvar]) else None
  }

  /** The first `i` knobs have their new value where they want one; the rest are as they were. */
  ghost predicate Replaced(knobs: seq<Slider>, current: Values, values: Values, i: nat, want: seq<Option<string>>) {
    && values.Keys == current.Keys && i <= |knobs| == |want|
    && forall j | 0 <= j < |knobs| ::
         var c := knobs[j].cvar;
         c in values && values[c] == if j < i then want[j].GetOr(current[c]) else current[c]
  }

  lemma NothingReplaced(p: Panel, current: Values, want: seq<Option<string>>)
    requires WellFormed(p) && Full(p, current) && |want| == |p.adjustable|
    ensures Replaced(p.adjustable, current, current, 0, want) && CvarsDiffer(p.adjustable)
  {
    KnobsHaveValues(p, current);
  }

  lemma ReplaceOne(knobs: seq<Slider>, current: Values, values: Values, i: nat, want: seq<Option<string>>)
    requires CvarsDiffer(knobs)
    requires i < |knobs| && Replaced(knobs, current, values, i, want)
    ensures
      var next := if want[i].Some? then values[knobs[i].cvar := want[i].value] else values;
      Replaced(knobs, current, next, i + 1, want)
  {
  }

  /** The first `i` knobs have the draft's values, and `clean` says that they could all be written. */
  ghost predicate Drafting(p: Panel, raw: Values, current: Values, values: Values, clean: bool, i: nat) {
    && CvarsDiffer(p.adjustable) && Replaced(p.adjustable, current, values, i, DraftValues(p, raw))
    && (clean <==> forall j | 0 <= j < i :: !IsBad(p, raw, p.adjustable[j]))
  }

  lemma NothingDrafted(p: Panel, raw: Values, current: Values)
    requires WellFormed(p) && Full(p, current)
    ensures Drafting(p, raw, current, current, true, 0)
  {
    NothingReplaced(p, current, DraftValues(p, raw));
  }

  lemma OneMoreDrafted(p: Panel, raw: Values, current: Values, values: Values, clean: bool, i: nat)
    requires i < |p.adjustable| && Drafting(p, raw, current, values, clean, i)
    ensures
      var k := p.adjustable[i];
      Drafting(p, raw, current, DraftOne(p, raw, k, values), clean && !IsBad(p, raw, k), i + 1)
  {
    ReplaceOne(p.adjustable, current, values, i, DraftValues(p, raw));
    hide Replaced, CvarsDiffer;
  }

  lemma EndOfDraft(p: Panel, raw: Values, current: Values, values: Values, clean: bool)
    requires Drafting(p, raw, current, values, clean, |p.adjustable|)
    ensures IsDraft(p, raw, current, values)
    ensures clean <==> DraftWrites(p, raw)
  {
    hide Normal;
    if clean {
      forall k | k in p.adjustable && k.cvar in raw ensures Normal(p, k, raw[k.cvar]).Some? {
        assert !IsBad(p, raw, k);
      }
    }
  }

  method CheckPairs(p: Panel, values: Values) returns (errors: seq<DraftError>)
    requires forall k | k in p.adjustable :: k.cvar in values && (k.pairMax.Some? ==> k.pairMax.value in values)
    ensures errors == [] <==> PairsHold(p, values)
  {
    errors := [];
    for i := 0 to |p.adjustable|
      invariant errors == [] <==>
        forall k | k in p.adjustable[..i] && k.pairMax.Some? :: !Above(p, values[k.cvar], values[k.pairMax.value])
    {
      TakeOneMore(p.adjustable, i);
      var k := p.adjustable[i];
      if k.pairMax.None? { continue; }
      if Above(p, values[k.cvar], values[k.pairMax.value]) { errors := errors + [PairCrossed(k.cvar)]; }
    }
    assert p.adjustable[..|p.adjustable|] == p.adjustable;
  }

  // ---------- previewKnobs and restoreValues ----------

  /** The adjustable knobs the base does not report. */
  function Missing(base: Inventory, p: Panel): set<string> {
    set k | k in p.adjustable && Cvar(k.cvar) !in base :: k.cvar
  }

  method PreviewKnobs(p: Panel, raw: Option<Values>, current: Values, base: Option<Inventory>)
    returns (values: Values, errors: seq<DraftError>, fingerprint: Option<Fingerprint>)
    requires WellFormed(p) && Full(p, current)
    ensures values.Keys == current.Keys
    ensures raw.Some? ==>
      IsDraft(p, raw.value, current, values) && (errors == [] <==> DraftIsSound(p, raw.value, current, values))
    ensures raw.None? ==> errors != []
    ensures fingerprint ==
      if base.Some? && errors == [] && Missing(base.value, p) == {} then
        Some(FingerprintOf(Predicted(base.value, p, values), p.versionless))
      else None
  {
    values, errors := ValidateDraft(p, raw, current);
    fingerprint := None;
    if base.Some? && errors == [] && Missing(base.value, p) == {} {
      var inv := PredictInventory(base.value, p, values);
      fingerprint := Some(FingerprintOf(inv, p.versionless));
    }
  }

  /** What the panel cannot write back. */
  predicate Unwritable(p: Panel, inv: Inventory, k: Slider) {
    Cvar(k.cvar) in inv && Normal(p, k, inv[Cvar(k.cvar)]) != Some(inv[Cvar(k.cvar)])
  }

  ghost predicate IsRestore(p: Panel, inv: Inventory, current: Values, values: Values) {
    && values.Keys == current.Keys
    && forall k | k in p.adjustable && k.cvar in values ::
         values[k.cvar] == if Cvar(k.cvar) in inv then inv[Cvar(k.cvar)] else current[k.cvar]
  }

  function RecordedValue(inv: Inventory, k: Slider): Option<string> {
    if Cvar(k.cvar) in inv then Some(inv[Cvar(k.cvar)]) else None
  }

  function RecordedValues(p: Panel, inv: Inventory): (want: seq<Option<string>>)
    ensures |want| == |p.adjustable| && forall j | 0 <= j < |want| :: want[j] == RecordedValue(inv, p.adjustable[j])
  {
    seq(|p.adjustable|, j requires 0 <= j < |p.adjustable| => RecordedValue(inv, p.adjustable[j]))
  }

  /** The first `i` knobs' recorded values can be written back. */
  ghost predicate AllWritable(p: Panel, inv: Inventory, i: nat) {
    i <= |p.adjustable| && forall j | 0 <= j < i :: !Unwritable(p, inv, p.adjustable[j])
  }

  lemma OneMoreWritable(p: Panel, inv: Inventory, i: nat)
    requires i < |p.adjustable|
    ensures
      var k := p.adjustable[i];
      && RecordedValues(p, inv)[i] == RecordedValue(inv, k)
      && (Unwritable(p, inv, k) <==> Cvar(k.cvar) in inv && Normal(p, k, inv[Cvar(k.cvar)]) != Some(inv[Cvar(k.cvar)]))
      && (AllWritable(p, inv, i) && !Unwritable(p, inv, k) ==> AllWritable(p, inv, i + 1))
  {
    hide Normal;
  }

  lemma NoneUnwritable(p: Panel, inv: Inventory)
    ensures AllWritable(p, inv, 0)
  {
  }

  /** The recorded values, or None when one of them cannot be written. */
  method RestoreValues(p: Panel, inv: Inventory, current: Values) returns (r: Option<Values>)
    requires WellFormed(p) && Full(p, current)
    ensures r.None? <==> exists k :: k in p.adjustable && Unwritable(p, inv, k)
    ensures r.Some? ==> IsRestore(p, inv, current, r.value)
  {
    hide WellFormed, Full, Has, Replaced, Normal, IsRestore, RecordedValues, AllWritable;
    ghost var want := RecordedValues(p, inv);
    NothingReplaced(p, current, want);
    NoneUnwritable(p, inv);
    var values := current;
    for i := 0 to |p.adjustable|
      invariant Replaced(p.adjustable, current, values, i, want)
      invariant AllWritable(p, inv, i)
    {
      var k := p.adjustable[i];
      ReplaceOne(p.adjustable, current, values, i, want);
      OneMoreWritable(p, inv, i);
      var v := RecordedValue(inv, k);
      if v.None? { continue; }
      if Normal(p, k, v.value) != v { return None; }
      values := values[k.cvar := v.value];
    }
    EndOfRestore(p, inv, current, values, want);
    r := Some(values);
  }

  lemma EndOfRestore(p: Panel, inv: Inventory, current: Values, values: Values, want: seq<Option<string>>)
    requires Replaced(p.adjustable, current, values, |p.adjustable|, want) && want == RecordedValues(p, inv)
    requires AllWritable(p, inv, |p.adjustable|)
    ensures IsRestore(p, inv, current, values) && forall k | k in p.adjustable :: !Unwritable(p, inv, k)
  {
  }

  /**
   Restoring a patch and previewing it. The preview is free of errors exactly when the values kept
   for knobs the patch did not record can be written and every pair limit holds.
   */
  lemma RestoreIsAccepted(p: Panel, inv: Inventory, current: Values, restored: Values, values: Values)
    requires WellFormed(p) && Full(p, current)
    requires (forall k | k in p.adjustable :: !Unwritable(p, inv, k)) && IsRestore(p, inv, current, restored)
    requires IsDraft(p, restored, current, values)
    ensures DraftIsSound(p, restored, current, values) <==>
      && (forall k | k in p.adjustable && Cvar(k.cvar) !in inv :: Normal(p, k, current[k.cvar]).Some?)
      && PairsHold(p, values)
  {
    hide Normal;
    forall k | k in p.adjustable
      ensures Normal(p, k, if k.cvar in restored then restored[k.cvar] else current[k.cvar]).Some?
         <==> (Cvar(k.cvar) !in inv ==> Normal(p, k, current[k.cvar]).Some?)
    {
      assert !Unwritable(p, inv, k);
      assert Has(p.adjustable, k.cvar);
    }
    assert forall cvar | cvar in restored :: Has(p.adjustable, cvar);
  }

  ghost predicate RecordsAll(p: Panel, inv: Inventory) {
    forall k | k in p.adjustable :: Cvar(k.cvar) in inv
  }

  /** The pair limits, of the values a patch recorded. */
  ghost predicate RecordedPairsHold(p: Panel, inv: Inventory)
    requires WellFormed(p) && RecordsAll(p, inv)
  {
    forall k | k in p.adjustable && k.pairMax.Some? ::
      PairIsRecorded(p, inv, k); !Above(p, inv[Cvar(k.cvar)], inv[Cvar(k.pairMax.value)])
  }

  lemma PairIsRecorded(p: Panel, inv: Inventory, k: Slider)
    requires WellFormed(p) && RecordsAll(p, inv) && k in p.adjustable && k.pairMax.Some?
    ensures Cvar(k.pairMax.value) in inv
  {
    assert Has(p.adjustable, k.pairMax.value);
  }

  /** A restored value that is drafted again is written as it was recorded. */
  lemma RestoredStay(p: Panel, inv: Inventory, current: Values, restored: Values, values: Values)
    requires WellFormed(p) && Full(p, current)
    requires (forall k | k in p.adjustable :: !Unwritable(p, inv, k)) && IsRestore(p, inv, current, restored)
    requires IsDraft(p, restored, current, values)
    ensures forall k | k in p.adjustable ::
      k.cvar in values && (Cvar(k.cvar) in inv ==> values[k.cvar] == inv[Cvar(k.cvar)])
  {
    hide Normal;
    forall k | k in p.adjustable
      ensures k.cvar in values && (Cvar(k.cvar) in inv ==> values[k.cvar] == inv[Cvar(k.cvar)])
    {
      assert Has(p.adjustable, k.cvar) && !Unwritable(p, inv, k);
    }
  }

  /**
   The prediction from the restored values is the patch's own fingerprint if, and only if, the patch
   recorded every adjustable knob and differs from the base in nothing but those knobs, ignored
   plugins and builds of versionless plugins.
   */
  lemma RestoreReachesItsTarget(p: Panel, base: Inventory, inv: Inventory, current: Values, restored: Values,
                                values: Values)
    requires WellFormed(p) && Full(p, current)
    requires (forall k | k in p.adjustable :: !Unwritable(p, inv, k)) && IsRestore(p, inv, current, restored)
    requires IsDraft(p, restored, current, values)
    requires forall k | k in p.adjustable :: k.cvar in values
    ensures FingerprintOf(Predicted(base, p, values), p.versionless) == RecordedFingerprint(inv, p)
       <==> SameButKnobs(base, inv, p) && RecordsAll(p, inv)
  {
    RestoredStay(p, inv, current, restored, values);
    forall key | key in KnobKeys(p) && key in inv ensures values[key.name] == inv[key] {
      var k :| k in p.adjustable && key == Cvar(k.cvar);
    }
    hide Predicted, FingerprintOf, SameButKnobs, WellFormed, IsRestore, IsDraft, Normal;
    TargetOfParts(p, base, inv, values);
  }

  lemma TargetOfParts(p: Panel, base: Inventory, inv: Inventory, values: Values)
    requires forall k | k in p.adjustable :: k.cvar in values
    requires forall key | key in KnobKeys(p) && key in inv :: values[key.name] == inv[key]
    ensures FingerprintOf(Predicted(base, p, values), p.versionless) == RecordedFingerprint(inv, p)
       <==> SameButKnobs(base, inv, p) && RecordsAll(p, inv)
  {
    assert PartOf(p.adjustable, values).Keys == KnobKeys(p);
    assert (forall key | key in KnobKeys(p) :: key in inv) <==> RecordsAll(p, inv) by {
      if forall key | key in KnobKeys(p) :: key in inv {
        assert forall k | k in p.adjustable :: Cvar(k.cvar) in KnobKeys(p);
      }
    }
    PredictedParts(base, p, values);
    RecordedParts(inv, p);
    var over := PartOf(p.adjustable, values);
    assert forall key | key in over :: over[key] == values[key.name];
    hide Predicted, WithoutKnobs, FingerprintOf, KnobKeys, RecordedFingerprint, PartOf, RecordsAll;
    OverlayIs(FingerprintOf(WithoutKnobs(base, p), p.versionless), over, RecordedFingerprint(inv, p));
  }

  lemma RestoredPairs(p: Panel, inv: Inventory, values: Values)
    requires WellFormed(p) && RecordsAll(p, inv)
    requires forall k | k in p.adjustable :: k.cvar in values && values[k.cvar] == inv[Cvar(k.cvar)]
    ensures forall k | k in p.adjustable && k.pairMax.Some? :: k.pairMax.value in values
    ensures PairsHold(p, values) <==> RecordedPairsHold(p, inv)
  {
    hide Above;
    forall k | k in p.adjustable && k.pairMax.Some?
      ensures k.pairMax.value in values && Cvar(k.pairMax.value) in inv
      ensures values[k.pairMax.value] == inv[Cvar(k.pairMax.value)]
    {
      assert Has(p.adjustable, k.pairMax.value);
    }
  }

  /**
   A recorded patch restored and then previewed is predicted to bring back the patch's own fingerprint
   exactly when the base differs from it in nothing but adjustable knobs, ignored plugins and builds
   of versionless plugins, both report every adjustable knob, and the recorded values keep the pair
   limits. It is not restored exactly when the panel cannot write a recorded value.
   */
  method RestoreThenPreview(p: Panel, inv: Inventory, current: Values, base: Option<Inventory>)
    returns (restored: Option<Values>, fingerprint: Option<Fingerprint>)
    requires WellFormed(p) && Full(p, current)
    ensures restored.None? <==> exists k :: k in p.adjustable && Unwritable(p, inv, k)
    ensures restored.Some? ==>
      (fingerprint == Some(RecordedFingerprint(inv, p)) <==>
         base.Some? && SameButKnobs(base.value, inv, p) && RecordsAll(p, inv) && RecordsAll(p, base.value)
         && RecordedPairsHold(p, inv))
  {
    fingerprint := None;
    restored := RestoreValues(p, inv, current);
    if restored.None? { return; }
    var values, errors;
    values, errors, fingerprint := PreviewKnobs(p, restored, current, base);
    if base.Some? { PreviewOfRestore(p, inv, current, restored.value, values, base.value); }
  }

  lemma PreviewOfRestore(p: Panel, inv: Inventory, current: Values, restored: Values, values: Values, base: Inventory)
    requires WellFormed(p) && Full(p, current) && values.Keys == current.Keys
    requires (forall k | k in p.adjustable :: !Unwritable(p, inv, k)) && IsRestore(p, inv, current, restored)
    requires IsDraft(p, restored, current, values)
    ensures forall k | k in p.adjustable :: k.cvar in values
    ensures
      DraftIsSound(p, restored, current, values) && Missing(base, p) == {}
      && FingerprintOf(Predicted(base, p, values), p.versionless) == RecordedFingerprint(inv, p)
      <==> SameButKnobs(base, inv, p) && RecordsAll(p, inv) && RecordsAll(p, base) && RecordedPairsHold(p, inv)
  {
    KnobsHaveValues(p, current);
    RestoredStay(p, inv, current, restored, values);
    RestoreIsAccepted(p, inv, current, restored, values);
    RestoreReachesItsTarget(p, base, inv, current, restored, values);
    MissingNone(base, p);
    if RecordsAll(p, inv) { RestoredPairs(p, inv, values); }
    hide Predicted, FingerprintOf, SameButKnobs, RecordedFingerprint, Missing, DraftIsSound, PairsHold;
    hide RecordedPairsHold;
  }

  lemma MissingNone(base: Inventory, p: Panel)
    ensures Missing(base, p) == {} <==> RecordsAll(p, base)
  {
    if Missing(base, p) == {} {
      forall k | k in p.adjustable ensures Cvar(k.cvar) in base { assert k.cvar !in Missing(base, p); }
    }
  }

  // ---------- what an apply announced can be restored ----------

  /** The knob's value is text the panel would write just so. */
  ghost predicate OwnText(p: Panel, k: Slider, values: Values) {
    k.cvar in values && Normal(p, k, values[k.cvar]) == Some(values[k.cvar])
  }

  lemma DraftedIsOwnText(p: Panel, raw: Values, current: Values, values: Values, k: Slider)
    requires WellFormed(p) && Agree(p.texts) && Full(p, current)
    requires IsDraft(p, raw, current, values) && DraftIsSound(p, raw, current, values) && k in p.adjustable
    ensures OwnText(p, k, values) <==> k.cvar in raw || OwnText(p, k, current)
  {
    KnobsHaveValues(p, current);
    hide NormalizeKnobValue, Validated, Agree;
    if k.cvar in raw { NormalizedStays(k.knob, p.texts, raw[k.cvar], values[k.cvar]); }
  }

  /**
   The patch an accepted draft announces can be restored exactly when every value the draft did not
   set stood as the panel writes it.
   */
  lemma AnnouncedCanBeRestored(p: Panel, base: Inventory, raw: Values, current: Values, values: Values)
    requires WellFormed(p) && Agree(p.texts) && Full(p, current)
    requires IsDraft(p, raw, current, values) && DraftIsSound(p, raw, current, values)
    requires forall k | k in p.adjustable :: k.cvar in values
    ensures (forall k | k in p.adjustable :: !Unwritable(p, Predicted(base, p, values), k)) <==>
      forall k | k in p.adjustable && k.cvar !in raw :: OwnText(p, k, current)
  {
    forall k | k in p.adjustable
      ensures Unwritable(p, Predicted(base, p, values), k) <==> k.cvar !in raw && !OwnText(p, k, current)
    {
      DraftedIsOwnText(p, raw, current, values, k);
      PredictedValue(p, base, values, k);
    }
  }

  lemma PredictedValue(p: Panel, base: Inventory, values: Values, k: Slider)
    requires WellFormed(p) && k in p.adjustable && forall l | l in p.adjustable :: l.cvar in values
    ensures Cvar(k.cvar) in Predicted(base, p, values) && Predicted(base, p, values)[Cvar(k.cvar)] == values[k.cvar]
  {
  }

  /** The values applied one after the other on one panel, from the baselines on; `drafts` are what was sent. */
  ghost predicate Applied(p: Panel, drafts: seq<Values>, values: seq<Values>)
    requires WellFormed(p)
  {
    && |values| == |drafts| + 1
    && (forall i | 0 <= i < |values| :: Full(p, values[i]))
    && (forall k | k in p.adjustable :: k.cvar in values[0] && values[0][k.cvar] == k.knob.baseline)
    && (forall i | 0 <= i < |drafts| ::
          IsDraft(p, drafts[i], values[i], values[i + 1]) && Accepted(p, drafts[i], values[i], values[i + 1]))
  }

  ghost predicate Accepted(p: Panel, raw: Values, current: Values, values: Values)
    requires WellFormed(p)
  {
    Full(p, current) && values.Keys == current.Keys && DraftIsSound(p, raw, current, values)
  }

  lemma {:induction false} AppliedAreOwnTexts(p: Panel, drafts: seq<Values>, values: seq<Values>, i: nat, k: Slider)
    requires WellFormed(p) && Agree(p.texts) && Applied(p, drafts, values) && i < |values| && k in p.adjustable
    ensures OwnText(p, k, values[i])
  {
    if i == 0 {
      assert Validated(k.knob, p.texts);
    } else {
      AppliedAreOwnTexts(p, drafts, values, i - 1, k);
      assert Accepted(p, drafts[i - 1], values[i - 1], values[i]);
      DraftedIsOwnText(p, drafts[i - 1], values[i - 1], values[i], k);
    }
  }

  /** While the knobs stay as they are, whatever is applied, every announced patch can be restored. */
  lemma EveryApplyCanBeRestored(p: Panel, drafts: seq<Values>, values: seq<Values>, i: nat, base: Inventory)
    requires WellFormed(p) && Agree(p.texts) && Applied(p, drafts, values) && i < |values|
    requires forall k | k in p.adjustable :: k.cvar in values[i]
    ensures forall k | k in p.adjustable :: !Unwritable(p, Predicted(base, p, values[i]), k)
  {
    forall k | k in p.adjustable ensures !Unwritable(p, Predicted(base, p, values[i]), k) {
      AppliedAreOwnTexts(p, drafts, values, i, k);
      PredictedValue(p, base, values[i], k);
    }
  }
}
