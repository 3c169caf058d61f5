/**
 * The Elo rating calculator: a K-factor interpolated between 16 and 32 by the
 * capped rating gap, the logistic expected score, and the new rating rounded
 * half up. Arithmetic is exact (reals); `10^x` is a parameter `pow10` that is
 * only known to satisfy `Pow10Laws`.
 */
module Rating {

  /** The result enum; note that a loss is the sentinel `-1`, not a score of 0. */
  datatype GameResult = Loss | Draw | Win

  /** The numeric value of the enum member, used directly as the actual score. */
  function Score(result: GameResult): real {
    match result
    case Loss => -1.0
    case Draw => 0.5
    case Win => 1.0
  }

  /** Rating gap at which the K-factor is capped, also the logistic scale. */
  const RatingDifference: real := 400.0
  const MinKFactor: real := 16.0
  const MaxKFactor: real := 32.0

  function Abs(x: real): (r: real)
    ensures r >= 0.0 && (r == x || r == -x)
  {
    if x < 0.0 then -x else x
  }

  /** `Math.round`: the nearest integer, halves rounded up. */
  function Round(x: real): (r: int)
    ensures x - 0.5 < r as real <= x + 0.5
  {
    (x + 0.5).Floor
  }

  /** What the model assumes of `Math.pow(10, x)`. */
  ghost predicate Pow10Laws(pow10: real -> real) {
    && pow10(0.0) == 1.0
    && (forall x :: pow10(x) > 0.0)
    && (forall x, y :: x < y ==> pow10(x) < pow10(y))
  }

  /**
   * `getKFactor`: 16 plus 16 times the rating gap capped at 400, over 400.
   * It always lies in [16, 32], is 16 exactly for equal ratings and 32 once
   * the gap reaches 400.
   */
  function KFactor(playerRating: int, opponentRating: int): (k: real)
    ensures MinKFactor <= k <= MaxKFactor
    ensures k == MinKFactor <==> playerRating == opponentRating
    ensures Abs((playerRating - opponentRating) as real) >= RatingDifference ==> k == MaxKFactor
    ensures Abs((playerRating - opponentRating) as real) < RatingDifference ==>
      k == MinKFactor + (MaxKFactor - MinKFactor) * Abs((playerRating - opponentRating) as real) / RatingDifference
  {
    var ratingDifference := Abs((playerRating - opponentRating) as real);
    var capped := if ratingDifference < RatingDifference then ratingDifference else RatingDifference;
    MinKFactor + (MaxKFactor - MinKFactor) * (capped / RatingDifference)
  }

  /** The K-factor does not depend on which side is the player. */
  lemma KFactorSymmetric(playerRating: int, opponentRating: int)
    ensures KFactor(playerRating, opponentRating) == KFactor(opponentRating, playerRating)
  {
    assert Abs((playerRating - opponentRating) as real) == Abs((opponentRating - playerRating) as real);
  }

  /** `1 / (1 + 10^((opponent - player) / 400))`, strictly between 0 and 1. */
  function ExpectedScore(pow10: real -> real, playerRating: int, opponentRating: int): (e: real)
    requires Pow10Laws(pow10)
    ensures 0.0 < e < 1.0
  {
    var p := pow10((opponentRating - playerRating) as real / RatingDifference);
    assert p > 0.0;
    1.0 / (1.0 + p)
  }

  /** Against a stronger opponent the player is expected to score less. */
  lemma ExpectedScoreDecreasing(pow10: real -> real, playerRating: int, weaker: int, stronger: int)
    requires Pow10Laws(pow10)
    requires weaker < stronger
    ensures ExpectedScore(pow10, playerRating, stronger) < ExpectedScore(pow10, playerRating, weaker)
  {
    var a := (weaker - playerRating) as real / RatingDifference;
    var b := (stronger - playerRating) as real / RatingDifference;
    assert pow10(a) < pow10(b);
    assert pow10(a) > 0.0;
    InverseDecreasing(1.0 + pow10(a), 1.0 + pow10(b));
  }

  /** Equal ratings give an expected score of exactly one half. */
  lemma ExpectedScoreEven(pow10: real -> real, rating: int)
    requires Pow10Laws(pow10)
    ensures ExpectedScore(pow10, rating, rating) == 0.5
  {
    assert (rating - rating) as real / RatingDifference == 0.0;
  }

  lemma InverseDecreasing(x: real, y: real)
    requires 0.0 < x < y
    ensures 1.0 / y < 1.0 / x
  {
  }

  /** `calculateEloRating` before rounding: K times (actual minus expected). */
  function RatingChange(pow10: real -> real, playerRating: int, opponentRating: int, result: GameResult): (change: real)
    requires Pow10Laws(pow10)
    ensures result == Win ==> 0.0 < change < MaxKFactor * 1.0
    ensures result == Loss ==> -2.0 * MaxKFactor < change < -MinKFactor
  {
    var k := KFactor(playerRating, opponentRating);
    var e := ExpectedScore(pow10, playerRating, opponentRating);
    ChangeBounds(k, e, result);
    k * (Score(result) - e)
  }

  /** K times (actual minus expected) for an expected score strictly between 0 and 1. */
  lemma ChangeBounds(k: real, e: real, result: GameResult)
    requires MinKFactor <= k <= MaxKFactor && 0.0 < e < 1.0
    ensures result == Win ==> 0.0 < k * (Score(result) - e) < MaxKFactor * 1.0
    ensures result == Loss ==> -2.0 * MaxKFactor < k * (Score(result) - e) < -MinKFactor
  {
    if result == Win {
      assert k * (1.0 - e) > 0.0;
      assert k * (1.0 - e) == k - k * e;
      assert k * e > 0.0;
    } else if result == Loss {
      assert k * (-1.0 - e) == -k - k * e;
      assert 0.0 < k * e < k;
    }
  }

  /**
   * `calculateEloRating`: the player's rating plus the change, rounded half
   * up, so the result is within one half of the exact value.
   */
  function NewRating(pow10: real -> real, playerRating: int, opponentRating: int, result: GameResult): (rating: int)
    requires Pow10Laws(pow10)
    ensures var exact := playerRating as real + RatingChange(pow10, playerRating, opponentRating, result);
      exact - 0.5 < rating as real <= exact + 0.5
  {
    Round(playerRating as real + RatingChange(pow10, playerRating, opponentRating, result))
  }

  /**
   * Between equal ratings a win gains 8, a draw changes nothing and a loss
   * costs 24 (the loss sentinel -1 is 1.5 below the expected 0.5).
   */
  lemma EqualRatingsOutcomes(pow10: real -> real, rating: int)
    requires Pow10Laws(pow10)
    ensures NewRating(pow10, rating, rating, Win) == rating + 8
    ensures NewRating(pow10, rating, rating, Draw) == rating
    ensures NewRating(pow10, rating, rating, Loss) == rating - 24
  {
    ExpectedScoreEven(pow10, rating);
    assert KFactor(rating, rating) == 16.0;
  }

  /** A better result never gives a lower rating: WIN >= DRAW >= LOSS. */
  lemma NewRatingMonotoneInResult(pow10: real -> real, playerRating: int, opponentRating: int)
    requires Pow10Laws(pow10)
    ensures NewRating(pow10, playerRating, opponentRating, Win) >= NewRating(pow10, playerRating, opponentRating, Draw)
    ensures NewRating(pow10, playerRating, opponentRating, Draw) >= NewRating(pow10, playerRating, opponentRating, Loss)
  {
    var k := KFactor(playerRating, opponentRating);
    var e := ExpectedScore(pow10, playerRating, opponentRating);
    var x := playerRating as real;
    RoundMonotone(x + k * (Score(Draw) - e), x + k * (Score(Win) - e));
    RoundMonotone(x + k * (Score(Loss) - e), x + k * (Score(Draw) - e));
  }

  lemma RoundMonotone(x: real, y: real)
    requires x <= y
    ensures Round(x) <= Round(y)
  {
  }

  /**
   * Beating an opponent rated at least 400 higher gains more than 16 points,
   * hence more than the 8 gained against an equal opponent.
   */
  lemma UnderdogWinGainsMore(pow10: real -> real, playerRating: int, opponentRating: int, rating: int)
    requires Pow10Laws(pow10)
    requires opponentRating - playerRating >= 400
    ensures NewRating(pow10, playerRating, opponentRating, Win) - playerRating >= 16
    ensures NewRating(pow10, playerRating, opponentRating, Win) - playerRating
          > NewRating(pow10, rating, rating, Win) - rating
  {
    EqualRatingsOutcomes(pow10, rating);
    ExpectedScoreDecreasing(pow10, playerRating, playerRating, opponentRating);
    ExpectedScoreEven(pow10, playerRating);
    assert KFactor(playerRating, opponentRating) == 32.0;
  }
}
