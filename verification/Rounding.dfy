/** Python's round() to the nearest integer, ties to even, and the two routes a score takes to a percentage. */
module Rounding {

  /** n is the integer nearest to x, and the even one when two are equally near. */
  ghost predicate NearestEven(x: real, n: int) {
    && -0.5 <= x - n as real <= 0.5
    && (x - n as real == 0.5 || x - n as real == -0.5 ==> n % 2 == 0)
  }

  function Round(x: real): (n: int)
    ensures NearestEven(x, n)
  {
    var below := x.Floor;
    var rest := x - below as real;
    if rest < 0.5 then below
    else if rest > 0.5 then below + 1
    else if below % 2 == 0 then below
    else below + 1
  }

  /** NearestEven pins the rounded value down, so Round is the only function with that contract. */
  lemma RoundUnique(x: real, m: int, n: int)
    requires NearestEven(x, m) && NearestEven(x, n)
    ensures m == n
  {
    assert -1 <= m - n <= 1;
  }

  lemma RoundMonotone(x: real, y: real)
    requires x <= y
    ensures Round(x) <= Round(y)
  {
    // Neighbouring results out of order would both be ties of the same number.
    if x == y {
      RoundUnique(x, Round(x), Round(y));
    }
  }

  /** round(score * 100): the percentage in the published event and in the response. */
  function LivePercent(score: real): int {
    Round(score * 100.0)
  }

  /** round(score, 4), counted in ten-thousandths: what similarity_score keeps. */
  function Stored(score: real): int {
    Round(score * 10000.0)
  }

  /** round(float(text) * 100) for a stored text of n ten-thousandths. */
  function PercentOfStored(n: int): int {
    Round(n as real / 10000.0 * 100.0)
  }

  /** The percentage a late or reconnecting stream rebuilds from the hash. */
  function RebuiltPercent(score: real): int {
    PercentOfStored(Stored(score))
  }

  /** The score, in percent, lies just beside the half that the stored text shows, on the side that the tie rule does not pick. */
  predicate LostTie(score: real) {
    var n := Stored(score);
    var k := n / 100;
    && n % 100 == 50
    && (if k % 2 == 0 then score * 100.0 > k as real + 0.5 else score * 100.0 < k as real + 0.5)
  }

  /** The half between two integers goes to the even one. */
  lemma HalfToEven(k: int, p: int)
    requires NearestEven(k as real + 0.5, p)
    ensures p == if k % 2 == 0 then k else k + 1
  {
    var rest := k as real + 0.5 - p as real;
    assert rest == (k - p) as real + 0.5;
    assert k - p == 0 || k - p == -1;
    assert p % 2 == 0;
  }

  /** A percentage x kept as n hundredths and shown as p, when n stands half-way between k and k + 1. */
  lemma NearTie(x: real, n: int, k: int, p: int)
    requires NearestEven(x * 100.0, n) && NearestEven(n as real / 100.0, p)
    requires n == 100 * k + 50
    ensures p == if k % 2 == 0 then k else k + 1
    ensures k as real + 0.495 <= x <= k as real + 0.505
  {
    assert n as real / 100.0 == k as real + 0.5;
    HalfToEven(k, p);
  }

  lemma LiveNearTie(x: real, k: int, live: int)
    requires k as real + 0.495 <= x <= k as real + 0.505 && NearestEven(x, live)
    ensures x < k as real + 0.5 ==> live == k
    ensures x > k as real + 0.5 ==> live == k + 1
    ensures x == k as real + 0.5 ==> live == if k % 2 == 0 then k else k + 1
  {
    if x < k as real + 0.5 {
      RoundUnique(x, live, k);
    } else if x > k as real + 0.5 {
      RoundUnique(x, live, k + 1);
    } else {
      HalfToEven(k, live);
    }
  }

  /** Elsewhere n keeps a distance of a hundredth from every half, which is more than x can be away from n. */
  lemma AwayFromTie(x: real, n: int, p: int)
    requires NearestEven(x * 100.0, n) && NearestEven(n as real / 100.0, p)
    requires n % 100 != 50
    ensures NearestEven(x, p)
  {
    assert (100 * p - 50) as real <= n as real <= (100 * p + 50) as real;
    assert 100 * p - 50 < n < 100 * p + 50;
    assert 100.0 * p as real - 49.0 <= n as real <= 100.0 * p as real + 49.0;
  }

  /** The live and the rebuilt percentage differ exactly on the lost ties, and then by one. */
  lemma RebuiltAgreesExactly(score: real)
    ensures RebuiltPercent(score) == LivePercent(score) <==> !LostTie(score)
    ensures -1 <= RebuiltPercent(score) - LivePercent(score) <= 1
  {
    var x, n, p, live := score * 100.0, Stored(score), RebuiltPercent(score), LivePercent(score);
    assert x * 100.0 == score * 10000.0 && n as real / 10000.0 * 100.0 == n as real / 100.0;
    if n % 100 == 50 {
      NearTie(x, n, n / 100, p);
      LiveNearTie(x, n / 100, live);
    } else {
      AwayFromTie(x, n, p);
      RoundUnique(x, live, p);
    }
  }

  /** Equality of the two percentages is not a law: this passing score shows 75 live and 76 rebuilt. */
  lemma RebuiltCanDiffer()
    ensures LivePercent(0.75496) == 75 && RebuiltPercent(0.75496) == 76
  {
    RoundUnique(75.496, LivePercent(0.75496), 75);
    RoundUnique(7549.6, Stored(0.75496), 7550);
    RoundUnique(75.5, RebuiltPercent(0.75496), 76);
  }

  /** Either percentage orders scores as the scores themselves are ordered (weakly). */
  lemma PercentMonotone(low: real, high: real)
    requires low <= high
    ensures LivePercent(low) <= LivePercent(high)
    ensures RebuiltPercent(low) <= RebuiltPercent(high)
  {
    RoundMonotone(low * 100.0, high * 100.0);
    RoundMonotone(low * 10000.0, high * 10000.0);
    RoundMonotone(Stored(low) as real / 10000.0 * 100.0, Stored(high) as real / 10000.0 * 100.0);
  }

  /** Displayed percentages never contradict the decision, and at the default threshold a failing 75 is possible. */
  lemma PercentMatchesDecision(score: real, threshold: real)
    ensures score >= threshold ==>
      LivePercent(score) >= LivePercent(threshold) && RebuiltPercent(score) >= RebuiltPercent(threshold)
    ensures score < threshold ==>
      LivePercent(score) <= LivePercent(threshold) && RebuiltPercent(score) <= RebuiltPercent(threshold)
    ensures LivePercent(0.75) == RebuiltPercent(0.75) == LivePercent(0.7499) == RebuiltPercent(0.7499) == 75
  {
    if score >= threshold {
      PercentMonotone(threshold, score);
    } else {
      PercentMonotone(score, threshold);
    }
    RoundUnique(75.0, LivePercent(0.75), 75);
    RoundUnique(7500.0, Stored(0.75), 7500);
    RoundUnique(75.0, RebuiltPercent(0.75), 75);
    RoundUnique(74.99, LivePercent(0.7499), 75);
    RoundUnique(7499.0, Stored(0.7499), 7499);
    RoundUnique(74.99, RebuiltPercent(0.7499), 75);
  }
}
