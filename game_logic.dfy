/**
 * Hint bands, target drawing and the integer parts of the classic score.
 * The same `generateTarget`, `getHint`, `isPerfectGame` and `isComeback`
 * also appear, unchanged, as the `GameLogic` object of the game-mode registry.
 */
module GameLogic {
  import opened JsOps

  /** The `proximity` tags a hint can carry, across all modes. */
  datatype Proximity = Burning | VeryClose | Close | Medium | Far

  datatype HintData = HintData(text: string, proximity: Proximity)

  /** The texts of `getHint` that tell the player to go up. */
  const HIGHER_TEXTS: set<string> := {"Slightly higher", "Go higher", "Much higher", "Way too low"}
  /** The texts of `getHint` that tell the player to go down. */
  const LOWER_TEXTS: set<string> := {"Slightly lower", "Go lower", "Much lower", "Way too high"}

  /** `Math.floor(Math.random() * max) + 1`, the draw `r` standing for `Math.random()`. */
  function GenerateTarget(max: int, r: real): (t: int)
    requires 0.0 <= r < 1.0
    ensures max >= 1 ==> 1 <= t <= max
  {
    FloorDraw(r, max) + 1
  }

  /** The distance band of `|guess - target|`: 5, 15 and 30 are the limits. */
  function Band(diff: nat): Proximity {
    if diff <= 5 then VeryClose
    else if diff <= 15 then Close
    else if diff <= 30 then Medium
    else Far
  }

  function GetHint(guess: int, target: int): HintData {
    var diff := Abs(guess - target);
    var isHigher := guess < target;
    if diff <= 5 then
      HintData(if isHigher then "Slightly higher" else "Slightly lower", VeryClose)
    else if diff <= 15 then
      HintData(if isHigher then "Go higher" else "Go lower", Close)
    else if diff <= 30 then
      HintData(if isHigher then "Much higher" else "Much lower", Medium)
    else
      HintData(if isHigher then "Way too low" else "Way too high", Far)
  }

  /** The four bands of `getHint`, each as a range of the distance. */
  lemma GetHintBands(guess: int, target: int)
    ensures GetHint(guess, target).proximity == VeryClose <==> Abs(guess - target) <= 5
    ensures GetHint(guess, target).proximity == Close <==> 5 < Abs(guess - target) <= 15
    ensures GetHint(guess, target).proximity == Medium <==> 15 < Abs(guess - target) <= 30
    ensures GetHint(guess, target).proximity == Far <==> 30 < Abs(guess - target)
    ensures GetHint(guess, target).proximity == Band(Abs(guess - target))
  {
  }

  /**
   * The text points up exactly when the guess is below the target, and it is
   * always one of the eight texts; the band depends only on the distance.
   */
  lemma GetHintDirection(guess: int, target: int)
    ensures GetHint(guess, target).text in HIGHER_TEXTS + LOWER_TEXTS
    ensures GetHint(guess, target).text in HIGHER_TEXTS <==> guess < target
    ensures GetHint(guess, target).text in LOWER_TEXTS <==> guess >= target
  {
  }

  /** Two guesses at the same distance from their targets get the same band. */
  lemma GetHintDependsOnDistance(g1: int, t1: int, g2: int, t2: int)
    requires Abs(g1 - t1) == Abs(g2 - t2)
    ensures GetHint(g1, t1).proximity == GetHint(g2, t2).proximity
    ensures (g1 < t1) == (g2 < t2) ==> GetHint(g1, t1) == GetHint(g2, t2)
  {
  }

  /** `calculateScore`'s multiplier: 1 for easy, 2 for medium, 3 for anything else. */
  function DifficultyMultiplier(difficulty: string): int {
    if difficulty == "easy" then 1 else if difficulty == "medium" then 2 else 3
  }

  /** `calculateScore`'s time bonus: 50 under 30 seconds, 25 under 60, else 0. */
  function TimeBonus(timeTaken: int): int {
    if timeTaken < 30 then 50 else if timeTaken < 60 then 25 else 0
  }

  lemma DifficultyMultiplierCases(difficulty: string)
    ensures DifficultyMultiplier(difficulty) == 1 <==> difficulty == "easy"
    ensures DifficultyMultiplier(difficulty) == 2 <==> difficulty == "medium"
    ensures DifficultyMultiplier(difficulty) == 3 <==> difficulty !in {"easy", "medium"}
  {
  }

  /** The time bonus is one of 50, 25, 0 and never grows as the game gets slower. */
  lemma TimeBonusMonotone(t1: int, t2: int)
    requires t1 <= t2
    ensures TimeBonus(t1) in {0, 25, 50}
    ensures TimeBonus(t1) >= TimeBonus(t2)
    ensures TimeBonus(t1) == 50 <==> t1 < 30
    ensures TimeBonus(t1) == 0 <==> t1 >= 60
  {
  }

  predicate IsPerfectGame(attemptsUsed: int) {
    attemptsUsed == 1
  }

  predicate IsComeback(trialsLeft: int) {
    trialsLeft == 1
  }
}
