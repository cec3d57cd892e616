/**
 The safe range of a knob (src/balanceKnobs.ts, src/balanceControl.ts), said of the numbers the panel reads: what
 a draft may set, when it is accepted, and what is then sent to the servers.
 */
module SafeRange {
  import opened Wrappers
  import opened BalanceKnobs
  import opened KnobRestore

  /** `n` is `j` steps above the knob's lowest value. */
  predicate StepsUp(k: Knob, n: real, j: int) {
    n == k.min + j as real * (k.units as real / Scale(k.decimals))
  }

  /** A value the knob may have: in its range, on a step, and whole when it is an int knob. */
  ghost predicate IsSafe(k: Knob, n: real) {
    k.units > 0 && k.min <= n <= k.max && (exists j :: StepsUp(k, n, j)) && (k.isInt ==> n == n.Floor as real)
  }

  /** The text reads as such a value. */
  ghost predicate ReadsSafe(k: Knob, t: Texts, text: string) {
    t.number(text).Some? && IsSafe(k, t.number(text).value)
  }

  lemma StepsAreTens(decimals: nat)
    ensures Scale(0) == 1.0 && Scale(decimals + 1) == Scale(decimals) * 10.0
  {
  }

  lemma QuotientIs(x: real, step: real, j: int)
    requires step > 0.0
    ensures x / step == j as real <==> x == j as real * step
  {
    if x == j as real * step {
      Cancel(j as real, step);
    } else if x / step == j as real {
      Multiple(x, step, j);
    }
  }

  lemma Cancel(a: real, step: real)
    requires step > 0.0
    ensures a * step / step == a
  {
  }

  lemma WholeIsSteps(x: real, step: real)
    requires step > 0.0 && IsWhole(x / step)
    ensures x == (x / step).Floor as real * step
  {
    QuotientIs(x, step, (x / step).Floor);
  }

  lemma StepsAreWhole(x: real, step: real, j: int)
    requires step > 0.0 && x == j as real * step
    ensures IsWhole(x / step)
  {
    QuotientIs(x, step, j);
  }

  lemma OnGridIsSteps(k: Knob, n: real)
    requires k.units > 0
    ensures OnGrid(k, n) <==> exists j :: StepsUp(k, n, j)
  {
    hide Scale, IsWhole;
    StepIsPositive(k);
    var step := k.units as real / Scale(k.decimals);
    assert StepOf(k) == step;
    if OnGrid(k, n) {
      WholeIsSteps(n - k.min, step);
      assert StepsUp(k, n, ((n - k.min) / step).Floor);
    }
    if j :| StepsUp(k, n, j) {
      StepsAreWhole(n - k.min, step, j);
    }
  }

  /** The panel takes a text exactly when it reads as a safe value. */
  lemma TakenIffSafe(k: Knob, t: Texts, raw: string)
    ensures NormalizeKnobValue(k, raw, t).Ok? <==> ReadsSafe(k, t, raw)
  {
    if t.number(raw).Some? && k.units > 0 { OnGridIsSteps(k, t.number(raw).value); }
  }

  /** What it then writes reads back as the same value. */
  lemma WrittenReadsBack(k: Knob, t: Texts, raw: string)
    requires Agree(t) && Validated(k, t) && ReadsSafe(k, t, raw)
    ensures NormalizeKnobValue(k, raw, t).Ok? && t.number(NormalizeKnobValue(k, raw, t).value) == t.number(raw)
  {
    TakenIffSafe(k, t, raw);
    var n := t.number(raw).value;
    AcceptedIsWrittenAsItself(k, t, n);
    var i := WrittenPrints(k, n);
  }

  // ---------- a draft ----------

  /** What a draft asks for: its own text, else the value that is carried over. */
  function Asked(raw: Values, current: Values, k: Slider): string
    requires k.cvar in current
  {
    if k.cvar in raw then raw[k.cvar] else current[k.cvar]
  }

  /** Every value asked for is safe. */
  ghost predicate AllSafe(p: Panel, raw: Values, current: Values) {
    forall k | k in p.adjustable && k.cvar in current :: ReadsSafe(k.knob, p.texts, Asked(raw, current, k))
  }

  /** As numbers, no knob asked for is above the one it may not pass. */
  ghost predicate NoneAbove(p: Panel, raw: Values, current: Values) {
    forall k, other | k in p.adjustable && other in p.adjustable && k.pairMax == Some(other.cvar)
                      && k.cvar in current && other.cvar in current ::
      var x, y := p.texts.number(Asked(raw, current, k)), p.texts.number(Asked(raw, current, other));
      x.Some? && y.Some? ==> x.value <= y.value
  }

  /** Each knob has the number it was asked to have, in a text that reads so; an unsafe one keeps its value. */
  lemma DraftIsWhatWasAsked(p: Panel, raw: Values, current: Values, values: Values, k: Slider)
    requires WellFormed(p) && Agree(p.texts) && Full(p, current) && IsDraft(p, raw, current, values)
    requires k in p.adjustable
    ensures k.cvar in values && k.cvar in current
    ensures k.cvar in raw && ReadsSafe(k.knob, p.texts, raw[k.cvar]) ==>
      p.texts.number(values[k.cvar]) == p.texts.number(raw[k.cvar])
    ensures k.cvar !in raw || !ReadsSafe(k.knob, p.texts, raw[k.cvar]) ==> values[k.cvar] == current[k.cvar]
  {
    KnobsHaveValues(p, current);
    if k.cvar in raw {
      TakenIffSafe(k.knob, p.texts, raw[k.cvar]);
      hide ReadsSafe, NormalizeKnobValue, Agree;
      if ReadsSafe(k.knob, p.texts, raw[k.cvar]) { WrittenReadsBack(k.knob, p.texts, raw[k.cvar]); }
    }
  }

  /**
   A draft has no error exactly when every adjustable value, drafted or carried over, is safe, every name in
   it is a knob's, and as numbers no knob is above the one it may not pass.
   */
  lemma NoErrorIff(p: Panel, raw: Values, current: Values, values: Values)
    requires WellFormed(p) && Agree(p.texts) && Full(p, current) && IsDraft(p, raw, current, values)
    ensures DraftIsSound(p, raw, current, values) <==>
      && AllSafe(p, raw, current) && NoneAbove(p, raw, current)
      && forall cvar | cvar in raw :: exists k | k in p.adjustable :: k.cvar == cvar
  {
    hide Normal, ReadsSafe, Agree, Validated, NoneAbove, Above, PairsHold, SentAsAsked, CvarsDiffer;
    KnobsHaveValues(p, current);
    NormalIffSafe(p, raw, current);
    assert PairedAreKnobs(p);
    if AllSafe(p, raw, current) {
      AllAsAsked(p, raw, current, values);
      PairsAreNumbers(p, raw, current, values);
    }
  }

  ghost predicate PairedAreKnobs(p: Panel) {
    forall k | k in p.adjustable && k.pairMax.Some? :: Has(p.adjustable, k.pairMax.value)
  }

  lemma NormalIffSafe(p: Panel, raw: Values, current: Values)
    requires forall k | k in p.adjustable :: k.cvar in current
    ensures (forall k | k in p.adjustable :: Normal(p, k, Asked(raw, current, k)).Some?) <==> AllSafe(p, raw, current)
  {
    forall k | k in p.adjustable
      ensures Normal(p, k, Asked(raw, current, k)).Some? <==> ReadsSafe(k.knob, p.texts, Asked(raw, current, k))
    {
      TakenIffSafe(k.knob, p.texts, Asked(raw, current, k));
    }
  }

  /** Every value sent reads as the number asked for. */
  ghost predicate SentAsAsked(p: Panel, raw: Values, current: Values, values: Values) {
    forall k | k in p.adjustable && k.cvar in current && k.cvar in values ::
      p.texts.number(values[k.cvar]) == p.texts.number(Asked(raw, current, k))
  }

  lemma AllAsAsked(p: Panel, raw: Values, current: Values, values: Values)
    requires WellFormed(p) && Agree(p.texts) && Full(p, current) && IsDraft(p, raw, current, values)
    requires AllSafe(p, raw, current)
    ensures SentAsAsked(p, raw, current, values)
  {
    hide ReadsSafe, Agree, WellFormed, IsDraft;
    forall k | k in p.adjustable && k.cvar in current && k.cvar in values
      ensures p.texts.number(values[k.cvar]) == p.texts.number(Asked(raw, current, k))
    {
      DraftIsWhatWasAsked(p, raw, current, values, k);
    }
  }

  lemma PairsAreNumbers(p: Panel, raw: Values, current: Values, values: Values)
    requires SentAsAsked(p, raw, current, values) && PairedAreKnobs(p) && values.Keys == current.Keys
    requires Full(p, current)
    requires forall k | k in p.adjustable :: k.cvar in values && (k.pairMax.Some? ==> k.pairMax.value in values)
    ensures PairsHold(p, values) <==> NoneAbove(p, raw, current)
  {
    if NoneAbove(p, raw, current) {
      forall k | k in p.adjustable && k.pairMax.Some? ensures !Above(p, values[k.cvar], values[k.pairMax.value]) {
        var other :| other in p.adjustable && other.cvar == k.pairMax.value;
      }
    }
  }

  /** What an accepted draft sends to the servers: for each knob a text that reads as the safe value asked for. */
  lemma SentAreSafe(p: Panel, raw: Values, current: Values, values: Values, k: Slider)
    requires WellFormed(p) && Agree(p.texts) && Full(p, current) && IsDraft(p, raw, current, values)
    requires DraftIsSound(p, raw, current, values) && k in p.adjustable
    ensures k.cvar in values && k.cvar in current && ReadsSafe(k.knob, p.texts, values[k.cvar])
    ensures p.texts.number(values[k.cvar]) == p.texts.number(Asked(raw, current, k))
  {
    KnobsHaveValues(p, current);
    NoErrorIff(p, raw, current, values);
    AllAsAsked(p, raw, current, values);
  }
}
