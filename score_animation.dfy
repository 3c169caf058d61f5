/**
 * The rating counter of the game-over dialog: starting from the old rating,
 * each timer tick moves the displayed score one point towards the new
 * rating, and the last tick snaps it onto the new rating and schedules
 * nothing further.
 */
module ScoreAnimation {

  /** What one tick produces: the next displayed score, and whether another tick is scheduled. */
  datatype Tick = Tick(score: int, again: bool)

  function Abs(x: int): nat { if x < 0 then -x else x }
  function Max(a: int, b: int): int { if a < b then b else a }

  /** `x` lies between `a` and `b`, inclusive, in either order. */
  predicate Between(x: int, a: int, b: int) {
    (a <= x <= b) || (b <= x <= a)
  }

  /**
   * The updater passed to `setDisplayedScore`: another tick is scheduled
   * exactly when the score is more than one point away from `newElo`; that
   * tick's score is one point closer and never passes `newElo`; otherwise the
   * score becomes `newElo`.
   */
  function AnimationTick(previous: int, newElo: int): (t: Tick)
    ensures t.again <==> Abs(previous - newElo) > 1
    ensures t.again ==> Abs(t.score - newElo) == Abs(previous - newElo) - 1
    ensures !t.again ==> t.score == newElo
    ensures Between(t.score, previous, newElo)
  {
    if previous - 1 > newElo then Tick(previous - 1, true)
    else if previous + 1 < newElo then Tick(previous + 1, true)
    else Tick(newElo, false)
  }

  /** The score a second tick would see is a fixed point once reached. */
  lemma NewEloIsFixedPoint(newElo: int)
    ensures AnimationTick(newElo, newElo) == Tick(newElo, false)
  {
  }

  /** The tick produced after `n >= 1` ticks starting from `score`, stopping once one schedules nothing. */
  function Animate(score: int, newElo: int, n: nat): Tick
    requires n >= 1
    decreases n
  {
    var t := AnimationTick(score, newElo);
    if n == 1 || !t.again then t else Animate(t.score, newElo, n - 1)
  }

  /**
   * From `elo` the animation keeps scheduling ticks for `max(1, |elo - newElo|) - 1`
   * ticks, then the last tick lands on `newElo` and schedules nothing; every
   * score shown on the way lies between `elo` and `newElo`.
   */
  lemma {:induction false} AnimationSettles(elo: int, newElo: int, n: nat)
    requires 1 <= n <= Max(1, Abs(elo - newElo))
    ensures Animate(elo, newElo, n).again <==> n < Max(1, Abs(elo - newElo))
    ensures n == Max(1, Abs(elo - newElo)) ==> Animate(elo, newElo, n).score == newElo
    ensures Between(Animate(elo, newElo, n).score, elo, newElo)
    decreases n
  {
    var t := AnimationTick(elo, newElo);
    if n > 1 {
      AnimationSettles(t.score, newElo, n - 1);
    }
  }

  /** The displayed score of the dialog. */
  class ScoreCounter {
    var displayedScore: int
    const newElo: int

    constructor (elo: int, newElo: int)
      ensures displayedScore == elo && this.newElo == newElo
    {
      displayedScore := elo;
      this.newElo := newElo;
    }

    /**
     * `runAnimation`, one tick per iteration: the score ends at `newElo`
     * after `max(1, |elo - newElo|)` ticks, never leaving the range between
     * the starting score and `newElo`.
     */
    method RunAnimation() returns (ticks: nat)
      modifies this
      ensures displayedScore == newElo
      ensures ticks == Max(1, Abs(old(displayedScore) - newElo))
    {
      var again := true;
      ticks := 0;
      while again
        invariant Between(displayedScore, old(displayedScore), newElo)
        invariant again ==> ticks + Max(1, Abs(displayedScore - newElo)) == Max(1, Abs(old(displayedScore) - newElo))
        invariant !again ==> displayedScore == newElo && ticks == Max(1, Abs(old(displayedScore) - newElo))
        decreases Abs(displayedScore - newElo) + (if again then 1 else 0)
      {
        var t := AnimationTick(displayedScore, newElo);
        displayedScore := t.score;
        again := t.again;
        ticks := ticks + 1;
      }
    }
  }
}
