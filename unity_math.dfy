/** The two Mathf helpers the generators use on integers. */
module UnityMath {
  import opened Arithmetic

  /** Mathf.Clamp(value, min, max) for integers: min when value is below it,
      otherwise max when value is above that. */
  function Clamp(value: int, min: int, max: int): (r: int)
    ensures min <= max ==> min <= r <= max
    ensures min <= value <= max ==> r == value
    ensures value < min ==> r == min
    ensures min <= max && value > max ==> r == max
  {
    if value < min then min else if value > max then max else value
  }

  /** Mathf.CeilToInt((float)measures / patternLength) for a positive pattern
      length: the ceiling of the quotient, computed exactly. */
  function CeilDiv(measures: int, patternLength: int): (q: int)
    requires patternLength > 0
    ensures q * patternLength >= measures
    ensures (q - 1) * patternLength < measures
  {
    -((-measures) / patternLength)
  }

  /** Tiling a pattern covers the requested measures with less than one
      pattern to spare, and never tiles when no measure is requested. */
  lemma {:induction false} TilingCovers(measures: int, patternLength: int)
    requires patternLength > 0
    ensures measures <= 0 ==> CeilDiv(measures, patternLength) <= 0
    ensures measures > 0 ==> CeilDiv(measures, patternLength) >= 1
    ensures measures <= CeilDiv(measures, patternLength) * patternLength < measures + patternLength
    ensures measures % patternLength == 0 ==> CeilDiv(measures, patternLength) * patternLength == measures
  {
    var q, p := CeilDiv(measures, patternLength), patternLength;
    MulSign(q - 1, p);
    MulSign(q, p);
    assert (q - 1) * p + p == q * p;
    if measures % p == 0 {
      var k := measures / p;
      assert -measures == (-k) * p;
      DivExact(-k, p);
    }
  }

  lemma {:induction false} MulSign(x: int, p: int)
    requires p > 0
    ensures x >= 0 ==> x * p >= 0
    ensures x <= 0 ==> x * p <= 0
  {
  }
}
