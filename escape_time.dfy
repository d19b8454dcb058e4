/**
 * The escape-time evaluator of MandelbrotView.inMandelbrotSet.
 *
 * Float arithmetic is idealised as exact `real` arithmetic; everything proved
 * here is about control flow and counting, which does not depend on rounding.
 */
module EscapeTime {

  /** A point of the complex plane, `re + im·i`. */
  datatype Complex = Complex(re: real, im: real)

  /** What the evaluator reports: whether the point stayed bounded, and after how many steps it stopped. */
  datatype EscapeResult = EscapeResult(inSet: bool, iterationCount: nat)

  /** One step of the iteration z ← z² + c. */
  function Step(z: Complex, c: Complex): Complex
  {
    Complex(z.re * z.re - z.im * z.im + c.re, 2.0 * z.re * z.im + c.im)
  }

  /** z_n of the orbit of 0 under z ← z² + c. */
  function Orbit(c: Complex, n: nat): Complex
  {
    if n == 0 then Complex(0.0, 0.0) else Step(Orbit(c, n - 1), c)
  }

  lemma OrbitOne(c: Complex)
    ensures Orbit(c, 1) == c
  {
    assert Orbit(c, 1) == Step(Orbit(c, 0), c);
  }

  lemma OrbitTwo(c: Complex)
    ensures Orbit(c, 2) == Step(c, c)
  {
    assert Orbit(c, 2) == Step(Orbit(c, 1), c);
    OrbitOne(c);
  }

  /** The escape test: squared magnitude STRICTLY greater than 4. */
  predicate Escaped(z: Complex)
  {
    z.re * z.re + z.im * z.im > 4.0
  }

  /**
   * What an escape-time answer for `c` with budget `maxIterationCount` must be:
   * the budget allows maxIterationCount + 1 steps; an escaping point reports the
   * first step whose value escaped; a point that never escapes within the budget
   * reports maxIterationCount + 1.
   */
  ghost predicate IsEscapeTime(c: Complex, maxIterationCount: nat, r: EscapeResult)
  {
    && 1 <= r.iterationCount <= maxIterationCount + 1
    && (forall n :: 1 <= n < r.iterationCount ==> !Escaped(Orbit(c, n)))
    && (r.inSet ==> r.iterationCount == maxIterationCount + 1 && !Escaped(Orbit(c, r.iterationCount)))
    && (!r.inSet ==> Escaped(Orbit(c, r.iterationCount)))
  }

  /** Searches steps n, n + 1, ..., last for the first escaping one. */
  function FirstEscape(c: Complex, n: nat, last: nat): EscapeResult
    requires 1 <= n <= last
    decreases last - n
  {
    if Escaped(Orbit(c, n)) then EscapeResult(false, n)
    else if n == last then EscapeResult(true, last)
    else FirstEscape(c, n + 1, last)
  }

  /** The reference answer: search steps 1 .. maxIterationCount + 1. */
  function Escape(c: Complex, maxIterationCount: nat): EscapeResult
  {
    FirstEscape(c, 1, maxIterationCount + 1)
  }

  lemma {:induction false} FirstEscapeFound(c: Complex, n: nat, last: nat)
    requires 1 <= n <= last
    requires forall k :: 1 <= k < n ==> !Escaped(Orbit(c, k))
    ensures n <= FirstEscape(c, n, last).iterationCount <= last
    ensures forall k :: 1 <= k < FirstEscape(c, n, last).iterationCount ==> !Escaped(Orbit(c, k))
    ensures FirstEscape(c, n, last).inSet ==>
              FirstEscape(c, n, last).iterationCount == last && !Escaped(Orbit(c, last))
    ensures !FirstEscape(c, n, last).inSet ==> Escaped(Orbit(c, FirstEscape(c, n, last).iterationCount))
    decreases last - n
  {
    if !Escaped(Orbit(c, n)) && n < last {
      FirstEscapeFound(c, n + 1, last);
    }
  }

  /** The reference answer is an escape-time answer. */
  lemma EscapeIsEscapeTime(c: Complex, maxIterationCount: nat)
    ensures IsEscapeTime(c, maxIterationCount, Escape(c, maxIterationCount))
  {
    FirstEscapeFound(c, 1, maxIterationCount + 1);
  }

  /** ... and the only one: any result meeting IsEscapeTime is the reference answer. */
  lemma EscapeTimeIsUnique(c: Complex, maxIterationCount: nat, r: EscapeResult)
    requires IsEscapeTime(c, maxIterationCount, r)
    ensures r == Escape(c, maxIterationCount)
  {
    EscapeIsEscapeTime(c, maxIterationCount);
  }

  /**
   * inMandelbrotSet: a loop over the inclusive range 0...maxIterationCount,
   * counting steps and leaving the loop at the first escaping value.
   */
  method InMandelbrotSet(re: real, im: real, maxIterationCount: nat) returns (inSet: bool, iterationCount: nat)
    ensures IsEscapeTime(Complex(re, im), maxIterationCount, EscapeResult(inSet, iterationCount))
    ensures EscapeResult(inSet, iterationCount) == Escape(Complex(re, im), maxIterationCount)
  {
    var c := Complex(re, im);
    inSet := true;
    iterationCount := 0;
    var x, y := 0.0, 0.0;
    var nextX, nextY := 0.0, 0.0;
    for step := 0 to maxIterationCount + 1
      invariant inSet && iterationCount == step
      invariant Complex(x, y) == Orbit(c, step)
      invariant forall n :: 1 <= n <= step ==> !Escaped(Orbit(c, n))
    {
      iterationCount := iterationCount + 1;
      var next := Step(Complex(x, y), c);
      nextX, nextY := next.re, next.im;
      if Escaped(next) {
        inSet := false;
        break;
      }
      x := nextX;
      y := nextY;
    }
    EscapeTimeIsUnique(c, maxIterationCount, EscapeResult(inSet, iterationCount));
  }

  lemma {:induction false} OriginIsFixed(n: nat)
    ensures Orbit(Complex(0.0, 0.0), n) == Complex(0.0, 0.0)
  {
    if n > 0 {
      OriginIsFixed(n - 1);
    }
  }

  /** c = 0 never escapes, whatever the budget, and reports maxIterationCount + 1. */
  lemma OriginInSet(maxIterationCount: nat)
    ensures Escape(Complex(0.0, 0.0), maxIterationCount) == EscapeResult(true, maxIterationCount + 1)
  {
    var c := Complex(0.0, 0.0);
    assert !Escaped(c);
    forall n: nat ensures !Escaped(Orbit(c, n)) {
      OriginIsFixed(n);
    }
    EscapeTimeIsUnique(c, maxIterationCount, EscapeResult(true, maxIterationCount + 1));
  }

  /** A point whose own squared magnitude exceeds 4 escapes at the first step, since z_1 = c. */
  lemma EscapesAtFirstStep(c: Complex, maxIterationCount: nat)
    requires Escaped(c)
    ensures Escape(c, maxIterationCount) == EscapeResult(false, 1)
  {
    OrbitOne(c);
    EscapeTimeIsUnique(c, maxIterationCount, EscapeResult(false, 1));
  }

  /** A point that survives step 1 and whose z_2 = c² + c escapes is reported at step 2, given a budget of at least 1. */
  lemma EscapesAtSecondStep(c: Complex, maxIterationCount: nat)
    requires maxIterationCount >= 1
    requires !Escaped(c) && Escaped(Step(c, c))
    ensures Escape(c, maxIterationCount) == EscapeResult(false, 2)
  {
    OrbitOne(c);
    OrbitTwo(c);
    EscapeTimeIsUnique(c, maxIterationCount, EscapeResult(false, 2));
  }

  /** With budget 0 there is a single step: a point that survives it is reported in the set, with count 1. */
  lemma SurvivesZeroBudget(c: Complex)
    requires !Escaped(c)
    ensures Escape(c, 0) == EscapeResult(true, 1)
  {
    OrbitOne(c);
    EscapeTimeIsUnique(c, 0, EscapeResult(true, 1));
  }

  /** c = 3 escapes at the first step: |3|² = 9 > 4. */
  lemma ThreeEscapesAtFirstStep(maxIterationCount: nat)
    ensures Escape(Complex(3.0, 0.0), maxIterationCount) == EscapeResult(false, 1)
  {
    EscapesAtFirstStep(Complex(3.0, 0.0), maxIterationCount);
  }

  /** c = 2 sits on the boundary at step 1 (4 > 4 is false) and escapes at step 2 (z_2 = 6). */
  lemma TwoEscapesAtSecondStep(maxIterationCount: nat)
    requires maxIterationCount >= 1
    ensures Escape(Complex(2.0, 0.0), maxIterationCount) == EscapeResult(false, 2)
  {
    EscapesAtSecondStep(Complex(2.0, 0.0), maxIterationCount);
  }

  /** With budget 0 the single step leaves c = 2 on the boundary, so it is reported in the set. */
  lemma TwoInSetWithZeroBudget()
    ensures Escape(Complex(2.0, 0.0), 0) == EscapeResult(true, 1)
  {
    SurvivesZeroBudget(Complex(2.0, 0.0));
  }

  /**
   * Raising the budget does not change the answer for a point that already
   * escaped: it is still escaped, at the same step. Only the answer and the
   * step count stay the same; the grey level, the step count divided by the
   * budget, falls as the budget grows.
   */
  lemma EscapeStableUnderLargerBudget(c: Complex, m1: nat, m2: nat)
    requires m1 <= m2
    requires !Escape(c, m1).inSet
    ensures Escape(c, m2) == Escape(c, m1)
  {
    EscapeIsEscapeTime(c, m1);
    EscapeTimeIsUnique(c, m2, Escape(c, m1));
  }

  /** A point reported in the set with some budget is reported in the set with every smaller budget. */
  lemma InSetUnderSmallerBudget(c: Complex, m1: nat, m2: nat)
    requires m1 <= m2
    requires Escape(c, m2).inSet
    ensures Escape(c, m1) == EscapeResult(true, m1 + 1)
  {
    EscapeIsEscapeTime(c, m1);
    EscapeIsEscapeTime(c, m2);
    if !Escape(c, m1).inSet {
      EscapeStableUnderLargerBudget(c, m1, m2);
    }
  }
}
