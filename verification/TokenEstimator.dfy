/** Heuristic token counts, calibrated by a clamped moving average. */
module TokenEstimator {
  import opened Messages

  const MESSAGE_OVERHEAD_TOKENS := 4
  const IMAGE_TOKENS := 1600

  predicate IsCjk(c: char) {
    || '\U{4e00}' <= c <= '\U{9fff}' || '\U{3400}' <= c <= '\U{4dbf}'
    || '\U{3040}' <= c <= '\U{30ff}' || '\U{ac00}' <= c <= '\U{d7af}'
  }

  /** Quarter tokens: four for a CJK character, one for any other. */
  function Quarters(text: string): nat {
    if |text| == 0 then 0 else Quarters(text[..|text| - 1]) + if IsCjk(text[|text| - 1]) then 4 else 1
  }

  function EstimateText(text: string): nat {
    (Quarters(text) + 3) / 4
  }

  function EstimateMessage(m: Message): (r: nat)
    ensures r >= MESSAGE_OVERHEAD_TOKENS
  {
    match m
    case ToolMessage(callId, name, content) =>
      MESSAGE_OVERHEAD_TOKENS + EstimateText(content) + EstimateText(name) + EstimateText(callId)
    case ChatMessage(_, content, images, calls) =>
      MESSAGE_OVERHEAD_TOKENS + EstimateText(content) + images * IMAGE_TOKENS
      + if |calls| > 0 then EstimateText(CallsText(calls)) else 0
  }

  method EstimateTextTokens(text: string) returns (r: nat)
    ensures r == EstimateText(text)
  {
    var quarters := 0;
    for i := 0 to |text|
      invariant quarters == Quarters(text[..i])
    {
      assert text[..i + 1][..i] == text[..i];
      quarters := quarters + if IsCjk(text[i]) then 4 else 1;
    }
    assert text[..|text|] == text;
    r := (quarters + 3) / 4;
  }

  // ---- Calibration ----

  function Round(x: real): int {
    (x + 0.5).Floor
  }

  function Calibrated(raw: nat, factor: real): nat {
    var r := Round(raw as real * factor);
    if r < 0 then 0 else r
  }

  function Clamp(value: real, min: real, max: real): real {
    var low := if value < min then min else value;
    if low > max then max else low
  }

  class Estimator {
    var factor: real
    const minFactor: real
    const maxFactor: real
    const emaAlpha: real

    /** The factor stays within its limits once they admit the initial value 1. */
    predicate Valid()
      reads this
    {
      minFactor <= factor <= maxFactor
    }

    constructor (min: real := 0.5, max: real := 2.0, alpha: real := 0.3)
      requires min <= 1.0 <= max
      ensures Valid() && factor == 1.0 && minFactor == min && maxFactor == max && emaAlpha == alpha
    {
      factor, minFactor, maxFactor, emaAlpha := 1.0, min, max, alpha;
    }

    function Estimate(m: Message): nat
      reads this
    {
      Calibrated(EstimateMessage(m), factor)
    }

    method Calibrate(rawEstimated: int, actual: int)
      requires Valid()
      modifies this
      ensures Valid()
      ensures rawEstimated <= 0 || actual <= 0 ==> factor == old(factor)
      ensures rawEstimated > 0 && actual > 0 ==>
                factor == Clamp(old(factor) * (1.0 - emaAlpha) + (actual as real / rawEstimated as real) * emaAlpha,
                                minFactor, maxFactor)
    {
      if rawEstimated <= 0 || actual <= 0 {
        return;
      }
      var ratio := actual as real / rawEstimated as real;
      var next := factor * (1.0 - emaAlpha) + ratio * emaAlpha;
      factor := Clamp(next, minFactor, maxFactor);
    }

    method ResetCalibration()
      requires minFactor <= 1.0 <= maxFactor
      modifies this
      ensures Valid() && factor == 1.0
    {
      factor := 1.0;
    }
  }

  lemma {:induction false} EstimateIsMonotone(a: nat, b: nat, f: real, g: real)
    requires a <= b && 0.0 <= f <= g
    ensures Calibrated(a, f) <= Calibrated(b, g)
  {
    var x, y := a as real, b as real;
    assert (y - x) * f >= 0.0 && y * (g - f) >= 0.0;
    assert x * f <= y * f <= y * g;
    assert Round(x * f) <= Round(y * g);
  }

  /** With a factor of at least one half, every message counts. */
  lemma {:induction false} MessagesCost(m: Message, factor: real)
    requires factor >= 0.5
    ensures Calibrated(EstimateMessage(m), factor) >= 2
  {
    EstimateIsMonotone(4, EstimateMessage(m), 0.5, factor);
  }
}
