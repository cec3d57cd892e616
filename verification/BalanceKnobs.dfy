/**
 How a knob's value becomes the text that is written (src/balanceKnobs.ts), in
 exact arithmetic: the source's 1e-9 only absorbs floating-point noise. Reading
 a text as a number and printing one are any functions that agree.
 */
module BalanceKnobs {
  import opened Wrappers

  /** An adjustable knob. Its step is `units` of the last of its `decimals`, as stepDecimals reads it. */
  datatype Knob = Knob(isInt: bool, min: real, max: real, units: nat, decimals: nat, baseline: string)

  datatype KnobError = NotANumber | NotWhole | OutOfRange | OffGrid

  /** `number` reads a plain decimal number; `text` prints one with so many decimals. */
  datatype Texts = Texts(number: string -> Option<real>, text: (real, nat) -> string)

  function Scale(decimals: nat): (r: real)
    ensures r > 0.0
  {
    if decimals == 0 then 1.0 else 10.0 * Scale(decimals - 1)
  }

  /** `i` of the last decimal. */
  function At(i: int, decimals: nat): real {
    i as real / Scale(decimals)
  }

  function StepOf(k: Knob): real {
    At(k.units, k.decimals)
  }

  predicate IsWhole(x: real) {
    x.Floor as real == x
  }

  /** Dividing by a step of zero leaves nothing on the grid. */
  predicate OnGrid(k: Knob, n: real) {
    k.units > 0 && (StepIsPositive(k); IsWhole((n - k.min) / StepOf(k)))
  }

  lemma StepIsPositive(k: Knob)
    requires k.units > 0
    ensures StepOf(k) > 0.0
  {
  }

  /** Math.round. */
  function Rounded(x: real): int {
    (x + 0.5).Floor
  }

  /** How many of the last decimal toFixed prints: halves go away from zero. */
  function Units(x: real, decimals: nat): int {
    if x < 0.0 then -Rounded(-x * Scale(decimals)) else Rounded(x * Scale(decimals))
  }

  /** The number formatKnobValue prints. */
  function Written(k: Knob, n: real): real {
    if k.isInt then Rounded(n) as real else At(Units(n, k.decimals), k.decimals)
  }

  function TextOf(k: Knob, n: real, t: Texts): string {
    t.text(Written(k, n), if k.isInt then 0 else k.decimals)
  }

  function Refused(k: Knob, n: real): Option<KnobError> {
    if k.isInt && !IsWhole(n) then Some(NotWhole)
    else if n < k.min || n > k.max then Some(OutOfRange)
    else if !OnGrid(k, n) then Some(OffGrid)
    else None
  }

  function NormalizeKnobValue(k: Knob, raw: string, t: Texts): Result<string, KnobError> {
    match t.number(raw)
    case None => Err(NotANumber)
    case Some(n) =>
      match Refused(k, n)
      case Some(e) => Err(e)
      case None => Ok(TextOf(k, n, t))
  }

  /** What validateAdjustable checks of one knob. */
  predicate Validated(k: Knob, t: Texts) {
    && k.units > 0 && k.min <= k.max && OnGrid(k, k.max)
    && (k.isInt ==> k.decimals == 0 && IsWhole(k.min) && IsWhole(k.max))
    && NormalizeKnobValue(k, k.baseline, t) == Ok(k.baseline)
  }

  /** A number with that many decimals prints and reads back. */
  ghost predicate Agree(t: Texts) {
    forall i: int, d: nat :: t.number(t.text(At(i, d), d)) == Some(At(i, d))
  }

  // ---------- a value that can be written is written as itself ----------

  lemma AtScaled(i: int, decimals: nat)
    ensures At(i, decimals) * Scale(decimals) == i as real && -At(i, decimals) * Scale(decimals) == (-i) as real
    ensures At(i, decimals) < 0.0 <==> i < 0
  {
  }

  lemma RoundedWhole(i: int)
    ensures Rounded(i as real) == i
  {
  }

  lemma PrintsAsItself(i: int, decimals: nat)
    ensures Units(At(i, decimals), decimals) == i
  {
    AtScaled(i, decimals);
    RoundedWhole(i);
    RoundedWhole(-i);
  }

  /** What is printed has no more decimals than the knob's. */
  lemma WrittenPrints(k: Knob, n: real) returns (i: int)
    ensures Written(k, n) == At(i, if k.isInt then 0 else k.decimals)
  {
    i := if k.isInt then Rounded(n) else Units(n, k.decimals);
  }

  /** Two values on the grid are a whole number of the last decimal apart. */
  lemma GridApart(k: Knob, a: real, b: real) returns (i: int)
    requires OnGrid(k, a) && OnGrid(k, b)
    ensures a - b == At(i, k.decimals)
  {
    StepIsPositive(k);
    var step, s := StepOf(k), Scale(k.decimals);
    var ja, jb := ((a - k.min) / step).Floor, ((b - k.min) / step).Floor;
    Multiple(a - k.min, step, ja);
    Multiple(b - k.min, step, jb);
    i := (ja - jb) * k.units;
    Apart(ja, jb, k.units, s, step);
  }

  lemma Multiple(x: real, step: real, j: int)
    requires step > 0.0 && x / step == j as real
    ensures x == j as real * step
  {
  }

  lemma Apart(ja: int, jb: int, units: nat, s: real, step: real)
    requires s > 0.0 && step == units as real / s
    ensures ja as real * step - jb as real * step == ((ja - jb) * units) as real / s
  {
    var j, u := (ja - jb) as real, units as real;
    assert ja as real * step - jb as real * step == j * step;
    assert ((ja - jb) * units) as real == j * u;
    assert j * (u / s) == (j * u) / s;
  }

  /**
   Because the baseline has to be written as itself, so is every value the panel accepts: what a
   rollout wrote can always be restored.
   */
  lemma AcceptedIsWrittenAsItself(k: Knob, t: Texts, n: real)
    requires Agree(t) && Validated(k, t) && Refused(k, n).None?
    ensures Written(k, n) == n
  {
    hide At, Scale, Agree;
    if k.isInt {
      RoundedWhole(n.Floor);
    } else {
      var b, ib := BaselinePrints(k, t);
      var i := GridApart(k, n, b);
      Added(ib, i, k.decimals);
      PrintsAsItself(ib + i, k.decimals);
    }
  }

  lemma Added(a: int, b: int, decimals: nat)
    ensures At(a, decimals) + At(b, decimals) == At(a + b, decimals)
  {
  }

  lemma BaselinePrints(k: Knob, t: Texts) returns (b: real, i: int)
    requires Agree(t) && Validated(k, t) && !k.isInt
    ensures OnGrid(k, b) && b == At(i, k.decimals)
  {
    b := t.number(k.baseline).value;
    i := WrittenPrints(k, b);
    hide At, Scale, Written;
    assert t.number(t.text(At(i, k.decimals), k.decimals)) == Some(At(i, k.decimals));
  }

  /** So the text that is written is one the panel reads back and writes as it is. */
  lemma NormalizedStays(k: Knob, t: Texts, raw: string, value: string)
    requires Agree(t) && Validated(k, t)
    requires NormalizeKnobValue(k, raw, t) == Ok(value)
    ensures NormalizeKnobValue(k, value, t) == Ok(value)
  {
    var n := t.number(raw).value;
    AcceptedIsWrittenAsItself(k, t, n);
    var i := WrittenPrints(k, n);
    assert t.number(value) == Some(n);
  }

  /** Without the check of the baseline it would not be: here each value accepted is written as one that is not. */
  lemma BaselineCheckIsNeeded()
    ensures
      var k := Knob(false, 0.05, 0.25, 1, 1, "");
      Refused(k, 0.05) == None && Written(k, 0.05) == 0.1 && Refused(k, 0.1) == Some(OffGrid)
  {
    var k := Knob(false, 0.05, 0.25, 1, 1, "");
    assert Scale(0) == 1.0 && Scale(1) == 10.0 && StepOf(k) == 0.1;
    assert (0.05 - 0.05) / 0.1 == 0.0;
    assert (0.1 - 0.05) / 0.1 == 0.5;
    assert (0.5 as real).Floor == 0;
    assert 0.05 * 10.0 + 0.5 == 1.0;
  }

  /**
   A step made coarser leaves values that pass but are no longer written as they stand: from 0.05 to
   0.1, the text 0.10 of an old rollout is accepted and written 0.1.
   */
  lemma CoarserStepRewrites(t: Texts)
    requires t.number("0.10") == Some(0.1) && t.text(0.1, 1) == "0.1"
    requires t.number("0.5") == Some(0.5) && t.text(0.5, 1) == "0.5"
    ensures
      var k := Knob(false, 0.0, 1.0, 1, 1, "0.5");
      Validated(k, t) && NormalizeKnobValue(k, "0.10", t) == Ok("0.1")
  {
    var k := Knob(false, 0.0, 1.0, 1, 1, "0.5");
    assert Scale(0) == 1.0 && Scale(1) == 10.0 && StepOf(k) == 0.1 && At(1, 1) == 0.1 && At(5, 1) == 0.5;
    assert (0.1 - 0.0) / 0.1 == 1.0 && (0.5 - 0.0) / 0.1 == 5.0 && (1.0 - 0.0) / 0.1 == 10.0;
    PrintsAsItself(1, 1);
    PrintsAsItself(5, 1);
  }
}
