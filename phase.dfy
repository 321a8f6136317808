/** The wrap applied to the impedance phase in degrees after each measurement, as the
    LCR program writes it, and the wrap into (-180, 180] it evidently means. */
module Phase {

  /** `d` is a whole number of turns. */
  predicate WholeTurns(d: real)
  {
    (d / 360.0).Floor as real == d / 360.0
  }

  /** The two-branch wrap as written: at or below -180 add a turn; otherwise, up to and
      including 180, subtract one; above 180 leave the value alone. It only ever shifts
      by a whole turn. */
  function PhaseWrapAsWritten(p: real): (r: real)
    ensures r == p || r == p + 360.0 || r == p - 360.0
    ensures WholeTurns(r - p)
  {
    if p <= -180.0 then p + 360.0
    else if p <= 180.0 then p - 360.0
    else p
  }

  /** The three cases of the wrap as written: the low branch lands in (-180, 180] only for
      p in (-540, -180]; every phase already in (-180, 180] is pushed out to (-540, -180];
      phases above 180 stay above 180. */
  lemma PhaseWrapAsWrittenCases(p: real)
    ensures p <= -180.0 ==> PhaseWrapAsWritten(p) == p + 360.0
    ensures -180.0 < p <= 180.0 ==> PhaseWrapAsWritten(p) == p - 360.0 && PhaseWrapAsWritten(p) <= -180.0
    ensures p > 180.0 ==> PhaseWrapAsWritten(p) == p && PhaseWrapAsWritten(p) > 180.0
  {
  }

  /** A concrete phase that shows it: a zero phase difference becomes -360 degrees. */
  lemma PhaseWrapAsWrittenMovesZero()
    ensures PhaseWrapAsWritten(0.0) == -360.0
  {
  }

  /** The evidently intended wrap: shift by whole turns into (-180, 180]. */
  function WrapPhase(p: real): (r: real)
    ensures -180.0 < r <= 180.0
    ensures WholeTurns(r - p)
  {
    var k := ((180.0 - p) / 360.0).Floor;
    assert (k as real) * 360.0 <= 180.0 - p < (k as real) * 360.0 + 360.0;
    assert (p + 360.0 * k as real - p) / 360.0 == k as real;
    p + 360.0 * k as real
  }

  /** Two wrapped values that differ by whole turns and both lie in (-180, 180] are equal. */
  lemma CanonicalUnique(a: real, b: real)
    requires -180.0 < a <= 180.0 && -180.0 < b <= 180.0
    requires WholeTurns(a - b)
    ensures a == b
  {
    var k := ((a - b) / 360.0).Floor;
    assert a - b == 360.0 * k as real;
  }

  lemma WholeTurnsNegate(d: real)
    requires WholeTurns(d)
    ensures WholeTurns(-d)
  {
    var k := (d / 360.0).Floor;
    assert d / 360.0 == k as real;
    assert -d / 360.0 == (-k) as real;
    assert (-d / 360.0).Floor == -k;
  }

  lemma WholeTurnsSum(d: real, e: real)
    requires WholeTurns(d) && WholeTurns(e)
    ensures WholeTurns(d + e)
  {
    var m, n := (d / 360.0).Floor, (e / 360.0).Floor;
    assert d / 360.0 == m as real && e / 360.0 == n as real;
    assert (d + e) / 360.0 == d / 360.0 + e / 360.0;
    assert (d + e) / 360.0 == (m + n) as real;
    assert ((d + e) / 360.0).Floor == m + n;
  }

  /** The wrap leaves a phase already in (-180, 180] unchanged. */
  lemma WrapPhaseFixesCanonical(p: real)
    requires -180.0 < p <= 180.0
    ensures WrapPhase(p) == p
  {
    CanonicalUnique(WrapPhase(p), p);
  }

  /** Wrapping twice is wrapping once. */
  lemma WrapPhaseIdempotent(p: real)
    ensures WrapPhase(WrapPhase(p)) == WrapPhase(p)
  {
    WrapPhaseFixesCanonical(WrapPhase(p));
  }

  /** Phases that differ by whole turns wrap to the same value. */
  lemma WrapPhaseRespectsTurns(p: real, q: real)
    requires WholeTurns(p - q)
    ensures WrapPhase(p) == WrapPhase(q)
  {
    var a, b := WrapPhase(p), WrapPhase(q);
    WholeTurnsSum(a - p, p - q);
    WholeTurnsNegate(b - q);
    WholeTurnsSum(a - q, -(b - q));
    assert a - q + -(b - q) == a - b;
    CanonicalUnique(a, b);
  }

  /** On the branch the source gets right, (-540, -180], both wraps agree. */
  lemma WrapsAgreeOnLowBranch(p: real)
    requires -540.0 < p <= -180.0
    ensures PhaseWrapAsWritten(p) == WrapPhase(p)
  {
    var a, b := PhaseWrapAsWritten(p), WrapPhase(p);
    WholeTurnsNegate(b - p);
    WholeTurnsSum(a - p, -(b - p));
    assert a - p + -(b - p) == a - b;
    CanonicalUnique(a, b);
  }
}
