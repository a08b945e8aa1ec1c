/**
 * The energy score and the message shown with it (app/page.tsx, handleAnalyze).
 *
 * The page rounds the real quotient (s + m + e) / 3 * 10 with Math.round.
 * Because the divisor is 3, the quotient's fractional part is 0, 1/3 or 2/3,
 * so it is never a half and the score has the exact integer form
 * (10 * (s + m + e) + 1) / 3, which is how it is defined here.
 */
module Scoring {

  /** A slider value: each range input has min 1, max 10 and step 1. */
  type Rating = r: int | 1 <= r <= 10 witness 1

  /** The three self-reported ratings, in the order the page declares them. */
  datatype Ratings = Ratings(sleep: Rating, mood: Rating, energy: Rating)

  /** JavaScript's Math.round: the nearest integer, halves rounded upwards. */
  function RoundHalfUp(x: real): int
  {
    (x + 0.5).Floor
  }

  /** The real value the page rounds: the average rating scaled to a percentage. */
  function Percentage(s: int, m: int, e: int): real
  {
    (s + m + e) as real / 3.0 * 10.0
  }

  /**
   * The energy score of three ratings, stated without reals: with n the
   * rating sum, q = 10n / 3 is the percentage, and r is the integer with
   * r <= q + 1/2 < r + 1 (that is, 6r <= 20n + 3 < 6r + 6), and it is within
   * one half of q (|6r - 20n| < 3).
   */
  function Score(s: int, m: int, e: int): (r: int)
    ensures 6 * r <= 20 * (s + m + e) + 3 < 6 * r + 6
    ensures -3 < 6 * r - 20 * (s + m + e) < 3
  {
    (10 * (s + m + e) + 1) / 3
  }

  /**
   * The score is Math.round of the percentage, and it is strictly nearer than
   * one half to it, so every round-to-nearest rule (half up, half even, half
   * away from zero) gives the same integer: a .5 tie never occurs.
   */
  lemma ScoreIsMathRound(s: int, m: int, e: int)
    ensures Score(s, m, e) == RoundHalfUp(Percentage(s, m, e))
    ensures -0.5 < Score(s, m, e) as real - Percentage(s, m, e) < 0.5
  {
    var r, n := Score(s, m, e), s + m + e;
    var x := Percentage(s, m, e);
    assert x + 0.5 == (20 * n + 3) as real / 6.0;
    assert r as real <= x + 0.5 < r as real + 1.0;
  }

  /** The score of a rating triple as the page computes it when the timer fires. */
  function ScoreOf(r: Ratings): (score: int)
    ensures score == RoundHalfUp(Percentage(r.sleep, r.mood, r.energy))
    ensures 10 <= score <= 100
  {
    ScoreIsMathRound(r.sleep, r.mood, r.energy);
    Score(r.sleep, r.mood, r.energy)
  }

  /**
   * The score only depends on the sum of the ratings and grows strictly with
   * it, so raising any single rating raises the score.
   */
  lemma {:induction false} ScoreStrictlyMonotone(s: int, m: int, e: int, s': int, m': int, e': int)
    requires s + m + e < s' + m' + e'
    ensures Score(s, m, e) < Score(s', m', e')
  {
    var n, n' := s + m + e, s' + m' + e';
    assert 10 * n + 1 + 3 <= 10 * n' + 1;
  }

  /** Raising one rating never lowers the score (one rating at a time). */
  lemma RaisingOneRatingNeverLowers(r: Ratings, v: Rating)
    ensures r.sleep <= v ==> ScoreOf(r) <= ScoreOf(r.(sleep := v))
    ensures r.mood <= v ==> ScoreOf(r) <= ScoreOf(r.(mood := v))
    ensures r.energy <= v ==> ScoreOf(r) <= ScoreOf(r.(energy := v))
  {
    if r.sleep < v { ScoreStrictlyMonotone(r.sleep, r.mood, r.energy, v, r.mood, r.energy); }
    if r.mood < v { ScoreStrictlyMonotone(r.sleep, r.mood, r.energy, r.sleep, v, r.energy); }
    if r.energy < v { ScoreStrictlyMonotone(r.sleep, r.mood, r.energy, r.sleep, r.mood, v); }
  }

  /** The extreme and worked examples of the score. */
  lemma ScoreExamples()
    ensures ScoreOf(Ratings(1, 1, 1)) == 10
    ensures ScoreOf(Ratings(10, 10, 10)) == 100
    ensures ScoreOf(Ratings(8, 6, 9)) == 77
    ensures ScoreOf(Ratings(7, 7, 7)) == 70
  {
  }

  /** The three qualitative messages, from best to worst. */
  datatype Message = Excellent | Good | Low

  /** The text the results view shows for each message. */
  function Text(msg: Message): string
  {
    match msg
    case Excellent => "Excellent! You're primed for a great day!"
    case Good => "Good energy levels - optimize with our recommendations"
    case Low => "Low energy detected - follow our recovery plan"
  }

  /** The three texts are distinct, so the shown text identifies the message. */
  lemma TextInjective(a: Message, b: Message)
    ensures Text(a) == Text(b) <==> a == b
  {
    if a != b {
      assert |Text(a)| != |Text(b)|;
    }
  }

  /** The message for a score: strict thresholds at 70 and 50. */
  function MessageFor(score: int): (msg: Message)
    ensures msg == Excellent <==> score > 70
    ensures msg == Good <==> 50 < score <= 70
    ensures msg == Low <==> score <= 50
  {
    if score > 70 then Excellent
    else if score > 50 then Good
    else Low
  }

  /** How good a message is: Low < Good < Excellent. */
  function Rank(msg: Message): nat
  {
    match msg
    case Low => 0
    case Good => 1
    case Excellent => 2
  }

  /** A higher score never selects a worse message. */
  lemma MessageMonotone(score: int, score': int)
    requires score <= score'
    ensures Rank(MessageFor(score)) <= Rank(MessageFor(score'))
  {
  }

  /** The boundary scores: both thresholds are exclusive. */
  lemma MessageBoundaries()
    ensures MessageFor(71) == Excellent
    ensures MessageFor(70) == Good
    ensures MessageFor(51) == Good
    ensures MessageFor(50) == Low
  {
  }

  /** The worked example: ratings 8, 6, 9 score 77 and read "Excellent". */
  lemma WorkedExample()
    ensures Text(MessageFor(ScoreOf(Ratings(8, 6, 9)))) == "Excellent! You're primed for a great day!"
  {
    ScoreExamples();
  }
}
