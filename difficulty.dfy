/**
 * Operand rules of src/generator/difficulty.ts: carry and borrow in the ones
 * column, the multiplier and divisor pools of each difficulty, and the
 * bounded-retry drawing of addends and of minuend/subtrahend pairs.
 */
module Difficulty {
  import opened Random

  datatype Difficulty = Easy | Normal | Hard

  /** JavaScript's `a % n`: the remainder takes the sign of `a`. */
  function JsRem(a: int, n: int): (r: int)
    requires n > 0
    ensures a >= 0 ==> r == a % n
    ensures a < 0 ==> -n < r <= 0 && r == -((-a) % n)
  {
    if a >= 0 then a % n else -((-a) % n)
  }

  /** `hasCarry(a, b)`: the ones digits sum to 10 or more. */
  predicate HasCarry(a: int, b: int) {
    JsRem(a, 10) + JsRem(b, 10) >= 10
  }

  /** `hasBorrow(a, b)`: the ones digit of `a` is below that of `b`. */
  predicate HasBorrow(a: int, b: int) {
    JsRem(a, 10) < JsRem(b, 10)
  }

  /**
   * For natural operands a carry is exactly what column addition passes to
   * the tens column: the tens of the sum differ from the sum of the tens.
   */
  lemma CarryIsColumnCarry(a: nat, b: nat)
    ensures HasCarry(a, b) <==> (a % 10) + (b % 10) >= 10
    ensures HasCarry(a, b) <==> (a + b) / 10 != a / 10 + b / 10
  {
    var p, x := a / 10, a % 10;
    var q, y := b / 10, b % 10;
    assert a + b == 10 * (p + q) + (x + y);
    if x + y >= 10 {
      assert a + b == 10 * (p + q + 1) + (x + y - 10);
    }
  }

  /**
   * For natural operands a borrow is exactly what column subtraction takes
   * from the tens column.
   */
  lemma BorrowIsColumnBorrow(a: nat, b: nat)
    ensures HasBorrow(a, b) <==> a % 10 < b % 10
    ensures HasBorrow(a, b) <==> (a - b) / 10 != a / 10 - b / 10
  {
    var p, x := a / 10, a % 10;
    var q, y := b / 10, b % 10;
    assert a - b == 10 * (p - q) + (x - y);
    if x < y {
      assert a - b == 10 * (p - q - 1) + (10 + x - y);
    }
  }

  lemma CarryBorrowExamples()
    ensures HasCarry(5, 5) && HasCarry(15, 16) && !HasCarry(3, 4)
    ensures HasBorrow(12, 5) && HasBorrow(10, 3) && !HasBorrow(15, 5)
  {
  }

  const MUL_EASY: seq<int> := [2, 5, 10]
  const MUL_NORMAL: seq<int> := [3, 4, 6]
  const MUL_HARD: seq<int> := [7, 8, 9]

  /** `getMultipliersForDifficulty`: the first factors a difficulty may use. */
  function MultipliersFor(d: Difficulty): (pool: seq<int>)
    ensures |pool| >= 3
    ensures forall m :: m in pool ==> 2 <= m <= 10
  {
    match d
    case Easy => MUL_EASY
    case Normal => MUL_EASY + MUL_NORMAL
    case Hard => MUL_EASY + MUL_NORMAL + MUL_HARD
  }

  /** Each harder tier extends the easier one, keeping its order. */
  lemma MultiplierTiers()
    ensures MultipliersFor(Easy) == [2, 5, 10]
    ensures MultipliersFor(Normal) == MultipliersFor(Easy) + [3, 4, 6]
    ensures MultipliersFor(Hard) == MultipliersFor(Normal) + [7, 8, 9]
    ensures forall m :: m in MultipliersFor(Easy) ==> m in MultipliersFor(Normal)
    ensures forall m :: m in MultipliersFor(Normal) ==> m in MultipliersFor(Hard)
  {
  }

  /** `getDivisorsForDifficulty`: divisors are single digits from 2 up, never 0. */
  function DivisorsFor(d: Difficulty): (pool: seq<int>)
    ensures |pool| >= 2
    ensures forall b :: b in pool ==> 2 <= b <= 9
  {
    match d
    case Easy => [2, 5]
    case Normal => [2, 3, 4, 5, 6]
    case Hard => [2, 3, 4, 5, 6, 7, 8, 9]
  }

  // ---------------------------------------------------------------------------
  // What the draws give: each function takes the stream `s` and the position
  // `i` of the next unused draw, and returns its result with the position
  // after the draws it used.

  /** `pick(arr)` with draw `i`: the element at index `floor(r * |arr|)`. */
  function PickAt(arr: seq<int>, s: Stream, i: nat): (x: int)
    requires |arr| > 0
    ensures x in arr
  {
    arr[Scale(s(i), |arr|)]
  }

  /**
   * `randomInt(min, max)` with draw `i`: `floor(r * (max - min + 1)) + min`.
   * With `min > max` the width is not positive and the result falls in
   * [max + 1, min].
   */
  function RandomIntAt(min: int, max: int, s: Stream, i: nat): (r: int)
    ensures min <= max ==> min <= r <= max
    ensures min > max ==> max + 1 <= r <= min
  {
    Scale(s(i), max - min + 1) + min
  }

  const MAX_ATTEMPTS: nat := 100

  /**
   * `randomAddends` from attempt `attempt` on, the attempt drawing its pair
   * at `i` and `i + 1`: a pair summing above `2 * rangeMax` or, when easy,
   * with a carry is rejected; after 100 attempts the fallback pair is
   * (rangeMin, rangeMin).
   */
  function AddendsFrom(rangeMin: int, rangeMax: int, d: Difficulty, s: Stream, i: nat, attempt: nat): (int, int, nat)
    decreases MAX_ATTEMPTS - attempt, 1
  {
    if attempt >= MAX_ATTEMPTS then (rangeMin, rangeMin, i)
    else AddendsTry(rangeMin, rangeMax, d, s, i, attempt)
  }

  /** Attempt `attempt` of `randomAddends`, on the pair drawn at `i` and `i + 1`. */
  function AddendsTry(rangeMin: int, rangeMax: int, d: Difficulty, s: Stream, i: nat, attempt: nat): (int, int, nat)
    requires attempt < MAX_ATTEMPTS
    decreases MAX_ATTEMPTS - attempt, 0
  {
    var a := RandomIntAt(rangeMin, rangeMax, s, i);
    var b := RandomIntAt(rangeMin, rangeMax, s, i + 1);
    if a + b > rangeMax * 2 || (d == Easy && HasCarry(a, b)) then
      AddendsFrom(rangeMin, rangeMax, d, s, i + 2, attempt + 1)
    else
      (a, b, i + 2)
  }

  /**
   * `randomMinuendSubtrahend` from attempt `attempt` on: a pair with a < b,
   * an equal pair when the range has more than one value or, when easy, a
   * pair with a borrow is rejected; after 100 attempts the fallback pair is
   * (rangeMax, rangeMin).
   */
  function MinuendSubtrahendFrom(rangeMin: int, rangeMax: int, d: Difficulty, s: Stream, i: nat, attempt: nat): (int, int, nat)
    decreases MAX_ATTEMPTS - attempt, 1
  {
    if attempt >= MAX_ATTEMPTS then (rangeMax, rangeMin, i)
    else MinuendSubtrahendTry(rangeMin, rangeMax, d, s, i, attempt)
  }

  /** Attempt `attempt` of `randomMinuendSubtrahend`, on the pair drawn at `i` and `i + 1`. */
  function MinuendSubtrahendTry(rangeMin: int, rangeMax: int, d: Difficulty, s: Stream, i: nat, attempt: nat): (int, int, nat)
    requires attempt < MAX_ATTEMPTS
    decreases MAX_ATTEMPTS - attempt, 0
  {
    var a := RandomIntAt(rangeMin, rangeMax, s, i);
    var b := RandomIntAt(rangeMin, rangeMax, s, i + 1);
    if a < b || (a == b && rangeMax > rangeMin) || (d == Easy && HasBorrow(a, b)) then
      MinuendSubtrahendFrom(rangeMin, rangeMax, d, s, i + 2, attempt + 1)
    else
      (a, b, i + 2)
  }

  /** `randomFactors` with draws `i` and `i + 1`: a pool multiplier and a factor in 1..9. */
  function FactorsAt(d: Difficulty, s: Stream, i: nat): (r: (int, int, nat))
    ensures r.0 in MultipliersFor(d) && 2 <= r.0 <= 10
    ensures 1 <= r.1 <= 9
    ensures r.2 == i + 2
  {
    (PickAt(MultipliersFor(d), s, i), RandomIntAt(1, 9, s, i + 1), i + 2)
  }

  /**
   * `randomDivisionOperands` with draws `i` and `i + 1`: a pool divisor, a
   * quotient in 1..9 and their product as dividend, so the division is exact.
   */
  function DivisionAt(d: Difficulty, s: Stream, i: nat): (r: (int, int, int, nat))
    ensures r.1 in DivisorsFor(d) && 2 <= r.1 <= 9
    ensures 1 <= r.2 <= 9 && r.0 == r.1 * r.2
    ensures r.0 % r.1 == 0 && r.0 / r.1 == r.2
    ensures r.3 == i + 2
  {
    var b := PickAt(DivisorsFor(d), s, i);
    var q := RandomIntAt(1, 9, s, i + 1);
    ProductDivides(b, q);
    (b * q, b, q, i + 2)
  }

  /**
   * The pair `randomAddends` returns keeps to its rules: within the range
   * and without carry when easy, unless it is the fallback (rangeMin, rangeMin).
   */
  lemma {:induction false} AddendsRules(rangeMin: int, rangeMax: int, d: Difficulty, s: Stream, i: nat, attempt: nat)
    ensures var r := AddendsFrom(rangeMin, rangeMax, d, s, i, attempt);
      && (rangeMin <= rangeMax ==> rangeMin <= r.0 <= rangeMax && rangeMin <= r.1 <= rangeMax)
      && (r.0 + r.1 <= 2 * rangeMax || (r.0 == rangeMin && r.1 == rangeMin))
      && (rangeMin > rangeMax ==> r.0 == rangeMin && r.1 == rangeMin)
      && (d == Easy && HasCarry(r.0, r.1) ==> r.0 == rangeMin && r.1 == rangeMin)
    decreases MAX_ATTEMPTS - attempt
  {
    if attempt < MAX_ATTEMPTS {
      AddendsRules(rangeMin, rangeMax, d, s, i + 2, attempt + 1);
    }
  }

  /**
   * The pair `randomMinuendSubtrahend` returns keeps to its rules: ordered,
   * distinct when the range allows it and without borrow when easy, unless
   * it is the fallback (rangeMax, rangeMin).
   */
  lemma {:induction false} MinuendSubtrahendRules(rangeMin: int, rangeMax: int, d: Difficulty, s: Stream, i: nat, attempt: nat)
    ensures var r := MinuendSubtrahendFrom(rangeMin, rangeMax, d, s, i, attempt);
      && (rangeMin <= rangeMax ==> rangeMin <= r.0 <= rangeMax && rangeMin <= r.1 <= rangeMax)
      && (rangeMin <= rangeMax ==> r.0 >= r.1)
      && (r.0 < r.1 ==> r.0 == rangeMax && r.1 == rangeMin)
      && (r.0 == r.1 && rangeMin <= rangeMax ==> rangeMin == rangeMax)
      && (d == Easy && HasBorrow(r.0, r.1) ==> r.0 == rangeMax && r.1 == rangeMin)
    decreases MAX_ATTEMPTS - attempt
  {
    if attempt < MAX_ATTEMPTS {
      MinuendSubtrahendRules(rangeMin, rangeMax, d, s, i + 2, attempt + 1);
    }
  }

  /** One attempt of `randomAddends` on the pair drawn at `i`: rejected, it goes on at `i + 2`; accepted, it is the result. */
  lemma AddendsAttempt(rangeMin: int, rangeMax: int, d: Difficulty, s: Stream, i: nat, attempt: nat, a: int, b: int)
    requires attempt < MAX_ATTEMPTS
    requires a == RandomIntAt(rangeMin, rangeMax, s, i) && b == RandomIntAt(rangeMin, rangeMax, s, i + 1)
    ensures a + b > rangeMax * 2 || (d == Easy && HasCarry(a, b)) ==>
      AddendsFrom(rangeMin, rangeMax, d, s, i, attempt) == AddendsFrom(rangeMin, rangeMax, d, s, i + 2, attempt + 1)
    ensures !(a + b > rangeMax * 2 || (d == Easy && HasCarry(a, b))) ==>
      AddendsFrom(rangeMin, rangeMax, d, s, i, attempt) == (a, b, i + 2)
  {
    assert AddendsFrom(rangeMin, rangeMax, d, s, i, attempt) == AddendsTry(rangeMin, rangeMax, d, s, i, attempt);
  }

  /** One attempt of `randomMinuendSubtrahend` on the pair drawn at `i`. */
  lemma MinuendSubtrahendAttempt(rangeMin: int, rangeMax: int, d: Difficulty, s: Stream, i: nat, attempt: nat, a: int, b: int)
    requires attempt < MAX_ATTEMPTS
    requires a == RandomIntAt(rangeMin, rangeMax, s, i) && b == RandomIntAt(rangeMin, rangeMax, s, i + 1)
    ensures a < b || (a == b && rangeMax > rangeMin) || (d == Easy && HasBorrow(a, b)) ==>
      MinuendSubtrahendFrom(rangeMin, rangeMax, d, s, i, attempt) == MinuendSubtrahendFrom(rangeMin, rangeMax, d, s, i + 2, attempt + 1)
    ensures !(a < b || (a == b && rangeMax > rangeMin) || (d == Easy && HasBorrow(a, b))) ==>
      MinuendSubtrahendFrom(rangeMin, rangeMax, d, s, i, attempt) == (a, b, i + 2)
  {
    assert MinuendSubtrahendFrom(rangeMin, rangeMax, d, s, i, attempt) == MinuendSubtrahendTry(rangeMin, rangeMax, d, s, i, attempt);
  }

  // ---------------------------------------------------------------------------
  // The drawing methods. `ch` names the function each one calls for a draw:
  // the source's helpers call `Math.random()` (MathRandomCall).

  /** `pick(arr)`: an element at a uniformly drawn index. */
  method Pick(rng: RandomSource, ch: Channel, arr: seq<int>) returns (x: int)
    requires |arr| > 0 && rng.Valid()
    modifies rng.seeded, rng.math
    ensures rng.Drew(ch)
    ensures x == PickAt(arr, old(rng.StreamOf(ch)), old(rng.PosOf(ch)))
    ensures rng.PosOf(ch) == old(rng.PosOf(ch)) + 1
  {
    var n := rng.Draw(ch);
    x := arr[Scale(n, |arr|)];
  }

  /** `randomInt(min, max)` for integer bounds. */
  method RandomInt(rng: RandomSource, ch: Channel, min: int, max: int) returns (r: int)
    requires rng.Valid()
    modifies rng.seeded, rng.math
    ensures rng.Drew(ch)
    ensures r == RandomIntAt(min, max, old(rng.StreamOf(ch)), old(rng.PosOf(ch)))
    ensures rng.PosOf(ch) == old(rng.PosOf(ch)) + 1
  {
    var n := rng.Draw(ch);
    r := Scale(n, max - min + 1) + min;
  }

  /**
   * One pass of the loop of `randomAddends`: two `randomInt(rangeMin,
   * rangeMax)` calls, then whether the pair is kept.
   */
  method AddendsAttemptDraw(rng: RandomSource, ch: Channel, rangeMin: int, rangeMax: int, d: Difficulty, ghost attempt: nat)
    returns (a: int, b: int, kept: bool)
    requires rng.Valid() && attempt < MAX_ATTEMPTS
    modifies rng.seeded, rng.math
    ensures rng.Drew(ch)
    ensures rng.PosOf(ch) == old(rng.PosOf(ch)) + 2
    ensures var s, i := old(rng.StreamOf(ch)), old(rng.PosOf(ch));
      if kept then AddendsFrom(rangeMin, rangeMax, d, s, i, attempt) == (a, b, i + 2)
      else AddendsFrom(rangeMin, rangeMax, d, s, i, attempt) == AddendsFrom(rangeMin, rangeMax, d, s, i + 2, attempt + 1)
  {
    ghost var s, i := rng.StreamOf(ch), rng.PosOf(ch);
    var maxSum := rangeMax * 2;
    a := RandomInt(rng, ch, rangeMin, rangeMax);
    b := RandomInt(rng, ch, rangeMin, rangeMax);
    AddendsAttempt(rangeMin, rangeMax, d, s, i, attempt, a, b);
    kept := true;
    if a + b > maxSum {
      kept := false;
    } else if d == Easy && HasCarry(a, b) {
      kept := false;
    }
  }

  /**
   * One pass of the loop of `randomMinuendSubtrahend`: two
   * `randomInt(rangeMin, rangeMax)` calls, then whether the pair is kept.
   */
  method MinuendSubtrahendAttemptDraw(rng: RandomSource, ch: Channel, rangeMin: int, rangeMax: int, d: Difficulty, ghost attempt: nat)
    returns (a: int, b: int, kept: bool)
    requires rng.Valid() && attempt < MAX_ATTEMPTS
    modifies rng.seeded, rng.math
    ensures rng.Drew(ch)
    ensures rng.PosOf(ch) == old(rng.PosOf(ch)) + 2
    ensures var s, i := old(rng.StreamOf(ch)), old(rng.PosOf(ch));
      if kept then MinuendSubtrahendFrom(rangeMin, rangeMax, d, s, i, attempt) == (a, b, i + 2)
      else MinuendSubtrahendFrom(rangeMin, rangeMax, d, s, i, attempt) == MinuendSubtrahendFrom(rangeMin, rangeMax, d, s, i + 2, attempt + 1)
  {
    ghost var s, i := rng.StreamOf(ch), rng.PosOf(ch);
    a := RandomInt(rng, ch, rangeMin, rangeMax);
    b := RandomInt(rng, ch, rangeMin, rangeMax);
    MinuendSubtrahendAttempt(rangeMin, rangeMax, d, s, i, attempt, a, b);
    kept := true;
    if a < b {
      kept := false;
    } else if a == b && rangeMax > rangeMin {
      kept := false;
    } else if d == Easy && HasBorrow(a, b) {
      kept := false;
    }
  }

  /**
   * `randomAddends`: up to 100 draws of a pair, rejecting a sum above
   * `2 * rangeMax` and, when easy, a carry; then the fallback pair
   * (rangeMin, rangeMin).
   */
  method RandomAddends(rng: RandomSource, ch: Channel, rangeMin: int, rangeMax: int, d: Difficulty)
    returns (a: int, b: int)
    requires rng.Valid()
    modifies rng.seeded, rng.math
    ensures rng.Drew(ch)
    ensures (a, b, rng.PosOf(ch)) == AddendsFrom(rangeMin, rangeMax, d, old(rng.StreamOf(ch)), old(rng.PosOf(ch)), 0)
  {
    ghost var s, start := rng.StreamOf(ch), rng.PosOf(ch);
    ghost var p := start;
    ghost var result := AddendsFrom(rangeMin, rangeMax, d, s, start, 0);
    for i := 0 to MAX_ATTEMPTS
      invariant rng.Drew(ch)
      invariant rng.PosOf(ch) == p
      invariant result == AddendsFrom(rangeMin, rangeMax, d, s, p, i)
    {
      var kept;
      a, b, kept := AddendsAttemptDraw(rng, ch, rangeMin, rangeMax, d, i);
      p := p + 2;
      if kept {
        assert result == (a, b, p);
        return;
      }
    }
    a, b := rangeMin, rangeMin;
  }

  /**
   * `randomMinuendSubtrahend`: up to 100 draws of a pair, rejecting a < b, an
   * equal pair when the range has more than one value and, when easy, a
   * borrow; then the fallback pair (rangeMax, rangeMin).
   */
  method RandomMinuendSubtrahend(rng: RandomSource, ch: Channel, rangeMin: int, rangeMax: int, d: Difficulty)
    returns (a: int, b: int)
    requires rng.Valid()
    modifies rng.seeded, rng.math
    ensures rng.Drew(ch)
    ensures (a, b, rng.PosOf(ch)) == MinuendSubtrahendFrom(rangeMin, rangeMax, d, old(rng.StreamOf(ch)), old(rng.PosOf(ch)), 0)
  {
    ghost var s, start := rng.StreamOf(ch), rng.PosOf(ch);
    ghost var p := start;
    ghost var result := MinuendSubtrahendFrom(rangeMin, rangeMax, d, s, start, 0);
    for i := 0 to MAX_ATTEMPTS
      invariant rng.Drew(ch)
      invariant rng.PosOf(ch) == p
      invariant result == MinuendSubtrahendFrom(rangeMin, rangeMax, d, s, p, i)
    {
      var kept;
      a, b, kept := MinuendSubtrahendAttemptDraw(rng, ch, rangeMin, rangeMax, d, i);
      p := p + 2;
      if kept {
        assert result == (a, b, p);
        return;
      }
    }
    a, b := rangeMax, rangeMin;
  }

  /** `randomFactors`: a multiplier from the pool and a second factor in 1..9. */
  method RandomFactors(rng: RandomSource, ch: Channel, d: Difficulty) returns (m: int, n: int)
    requires rng.Valid()
    modifies rng.seeded, rng.math
    ensures rng.Drew(ch)
    ensures (m, n, rng.PosOf(ch)) == FactorsAt(d, old(rng.StreamOf(ch)), old(rng.PosOf(ch)))
  {
    m := Pick(rng, ch, MultipliersFor(d));
    n := RandomInt(rng, ch, 1, 9);
  }

  /**
   * `randomDivisionOperands`: a divisor from the pool, a quotient in 1..9 and
   * their product as dividend.
   */
  method RandomDivisionOperands(rng: RandomSource, ch: Channel, d: Difficulty) returns (a: int, b: int, q: int)
    requires rng.Valid()
    modifies rng.seeded, rng.math
    ensures rng.Drew(ch)
    ensures (a, b, q, rng.PosOf(ch)) == DivisionAt(d, old(rng.StreamOf(ch)), old(rng.PosOf(ch)))
  {
    b := Pick(rng, ch, DivisorsFor(d));
    q := RandomInt(rng, ch, 1, 9);
    a := b * q;
  }

  /** A product of a pool divisor and a quotient digit divided by the divisor leaves the quotient, with no remainder. */
  lemma ProductDivides(b: int, q: int)
    requires 2 <= b <= 9 && 1 <= q <= 9
    ensures (b * q) % b == 0 && (b * q) / b == q
  {
  }
}
