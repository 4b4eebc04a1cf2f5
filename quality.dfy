/** The water quality evaluator's two pure decisions: the three-way safety
    classification of a reading and the Water Quality Index (WQI).
    A reading is a pH value, a turbidity in NTU and a total of dissolved
    solids (TDS) in ppm; pH and turbidity are reals, TDS is a whole number. */
module Quality {

  datatype Status = Safe | Moderate | Unsafe

  /** The Safe band: pH within [6.5, 8.5] inclusive on both ends, turbidity
      strictly below 3 NTU, TDS at most 600 ppm. */
  predicate InSafeBand(ph: real, turb: real, tds: int)
  {
    6.5 <= ph <= 8.5 && turb < 3.0 && tds <= 600
  }

  /** The Moderate band: turbidity at most 5 NTU (non-strict, unlike the
      Safe band's strict bound) and TDS at most 900 ppm. */
  predicate InModerateBand(turb: real, tds: int)
  {
    turb <= 5.0 && tds <= 900
  }

  /** First matching band wins: Safe, then Moderate, otherwise Unsafe. */
  function Classify(ph: real, turb: real, tds: int): (s: Status)
    ensures s == Safe <==> InSafeBand(ph, turb, tds)
    ensures s == Moderate <==> !InSafeBand(ph, turb, tds) && InModerateBand(turb, tds)
    ensures s == Unsafe <==> turb > 5.0 || tds > 900
  {
    if 6.5 <= ph <= 8.5 && turb < 3.0 && tds <= 600 then Safe
    else if turb <= 5.0 && tds <= 900 then Moderate
    else Unsafe
  }

  /** Python's int() on a number: truncation toward zero (not floor). */
  function Trunc(x: real): (n: int)
    ensures 0.0 <= x ==> n as real <= x < n as real + 1.0
    ensures x < 0.0 ==> n as real - 1.0 < x <= n as real
    ensures -1.0 < x < 1.0 ==> n == 0
  {
    if x >= 0.0 then x.Floor else -((-x).Floor)
  }

  function Abs(x: real): (a: real)
    ensures 0.0 <= a && (a == x || a == -x)
  {
    if x < 0.0 then -x else x
  }

  /** The deduction from a perfect 100: ten points per unit of pH away from
      neutral 7, eight per NTU of turbidity, one per 50 ppm of TDS. */
  function Penalty(ph: real, turb: real, tds: int): real
  {
    Abs(7.0 - ph) * 10.0 + turb * 8.0 + tds as real / 50.0
  }

  function Clamp(n: int, lo: int, hi: int): (c: int)
    requires lo <= hi
    ensures lo <= c <= hi
    ensures lo <= n <= hi ==> c == n
  {
    if n < lo then lo else if n > hi then hi else n
  }

  /** The Water Quality Index, max(0, min(100, int(100 - penalty))). */
  function Wqi(ph: real, turb: real, tds: int): (w: int)
    ensures 0 <= w <= 100
  {
    Clamp(Trunc(100.0 - Penalty(ph, turb, tds)), 0, 100)
  }

  /** int() truncation and floor differ only on negative non-integers, and
      the clamp sends every negative value to 0, so the index is equally the
      clamped floor of the raw score. */
  lemma WqiIsClampedFloor(ph: real, turb: real, tds: int)
    ensures Wqi(ph, turb, tds) == Clamp((100.0 - Penalty(ph, turb, tds)).Floor, 0, 100)
  {
  }

  /** A neutral reading with no turbidity and no dissolved solids scores 100. */
  lemma WqiOfPureWater()
    ensures Wqi(7.0, 0.0, 0) == 100
  {
  }

  /** The index never increases as the penalty grows. */
  lemma WqiAntitoneInPenalty(ph1: real, turb1: real, tds1: int, ph2: real, turb2: real, tds2: int)
    requires Penalty(ph1, turb1, tds1) <= Penalty(ph2, turb2, tds2)
    ensures Wqi(ph2, turb2, tds2) <= Wqi(ph1, turb1, tds1)
  {
  }

  /** Other inputs fixed, moving pH further from 7 never raises the index. */
  lemma WqiAntitoneInPhDeviation(ph1: real, ph2: real, turb: real, tds: int)
    requires Abs(7.0 - ph1) <= Abs(7.0 - ph2)
    ensures Wqi(ph2, turb, tds) <= Wqi(ph1, turb, tds)
  {
    WqiAntitoneInPenalty(ph1, turb, tds, ph2, turb, tds);
  }

  /** Other inputs fixed, more turbidity never raises the index. */
  lemma WqiAntitoneInTurbidity(ph: real, turb1: real, turb2: real, tds: int)
    requires turb1 <= turb2
    ensures Wqi(ph, turb2, tds) <= Wqi(ph, turb1, tds)
  {
    WqiAntitoneInPenalty(ph, turb1, tds, ph, turb2, tds);
  }

  /** Other inputs fixed, more dissolved solids never raise the index. */
  lemma WqiAntitoneInTds(ph: real, turb: real, tds1: int, tds2: int)
    requires tds1 <= tds2
    ensures Wqi(ph, turb, tds2) <= Wqi(ph, turb, tds1)
  {
    WqiAntitoneInPenalty(ph, turb, tds1, ph, turb, tds2);
  }

  /** Turbidity of exactly 3 NTU is excluded from Safe by the strict bound
      and admitted to Moderate by the non-strict one. */
  lemma TurbidityThreeIsModerate(ph: real, tds: int)
    requires 6.5 <= ph <= 8.5 && tds <= 600
    ensures Classify(ph, 3.0, tds) == Moderate
  {
  }

  /** Both pH bounds of the Safe band are inclusive. */
  lemma SafePhBoundsInclusive(turb: real, tds: int)
    requires turb < 3.0 && tds <= 600
    ensures Classify(6.5, turb, tds) == Safe && Classify(8.5, turb, tds) == Safe
  {
  }

  function Severity(s: Status): nat
  {
    match s
    case Safe => 0
    case Moderate => 1
    case Unsafe => 2
  }

  /** With pH fixed, a reading with no less turbidity and no less TDS is
      never classified as less severe. */
  lemma ClassifyMonotone(ph: real, turb1: real, tds1: int, turb2: real, tds2: int)
    requires turb1 <= turb2 && tds1 <= tds2
    ensures Severity(Classify(ph, turb1, tds1)) <= Severity(Classify(ph, turb2, tds2))
  {
  }

  /** The dangerous example reading: Unsafe, and its penalty of 122 points
      saturates the index at 0. */
  lemma ContaminatedExample()
    ensures Classify(4.0, 9.0, 1000) == Unsafe
    ensures Penalty(4.0, 9.0, 1000) == 122.0 && Wqi(4.0, 9.0, 1000) == 0
  {
  }

  /** The default demo reading: Safe, with an index of 100 - (2 + 16 + 7). */
  lemma DemoDefaultExample()
    ensures Classify(7.2, 2.0, 350) == Safe
    ensures Wqi(7.2, 2.0, 350) == 75
  {
  }
}
