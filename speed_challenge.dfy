/**
 * Speed challenges: the per-difficulty configuration table, challenge
 * generation from three random draws, the integer parts of the score, and
 * the statistics fold after a finished challenge.
 */
module SpeedChallenge {
  import opened Wrappers
  import opened JsOps
  import GameModes
  import Storage

  /** One row of the speed configuration table. */
  datatype SpeedRow = SpeedRow(maxRange: int, timeLimit: int, baseScore: int, difficultyMultiplier: real)

  /** `configs[difficulty]`, `None` for a difficulty the table does not have. */
  function SpeedRowOf(difficulty: string): Option<SpeedRow> {
    if difficulty == "easy" then Some(SpeedRow(50, 45, 100, 1.0))
    else if difficulty == "medium" then Some(SpeedRow(100, 60, 200, 1.5))
    else if difficulty == "hard" then Some(SpeedRow(200, 75, 300, 2.0))
    else if difficulty == "extreme" then Some(SpeedRow(500, 90, 500, 3.0))
    else None
  }

  /** The challenge record `generateChallenge` returns (its id and display name left out). */
  datatype Challenge = Challenge(
    difficulty: string,
    maxRange: int,
    timeLimit: int,
    targetNumber: int,
    baseScore: int,
    difficultyMultiplier: real,
    useProximityBonus: bool)

  /**
   * `generateChallenge(difficulty)`, the three `Math.random()` draws given as
   * `timeDraw`, `targetDraw` and `bonusDraw`, in the order the code makes them.
   */
  function GenerateChallenge(difficulty: string, timeDraw: real, targetDraw: real, bonusDraw: real): Challenge
    requires 0.0 <= timeDraw < 1.0 && 0.0 <= targetDraw < 1.0 && 0.0 <= bonusDraw < 1.0
  {
    var row := if SpeedRowOf(difficulty).Some? then SpeedRowOf(difficulty).value else SpeedRowOf("medium").value;
    var timeVariation := FloorDraw(timeDraw, 11) - 5;
    var adjustedTime := Max(20, row.timeLimit + timeVariation);
    var targetNumber := FloorDraw(targetDraw, row.maxRange) + 1;
    Challenge(difficulty, row.maxRange, adjustedTime, targetNumber, row.baseScore,
      row.difficultyMultiplier, bonusDraw > 0.7)
  }

  /**
   * An unknown difficulty uses the medium row (but keeps its name); the
   * time is the row's limit moved by -5..5 and never under 20 seconds; the
   * target lies in [1, maxRange]; the bonus is on for draws above 0.7.
   */
  lemma GenerateChallengeShape(difficulty: string, timeDraw: real, targetDraw: real, bonusDraw: real)
    requires 0.0 <= timeDraw < 1.0 && 0.0 <= targetDraw < 1.0 && 0.0 <= bonusDraw < 1.0
    ensures var c := GenerateChallenge(difficulty, timeDraw, targetDraw, bonusDraw);
            var row := if SpeedRowOf(difficulty).Some? then SpeedRowOf(difficulty).value else SpeedRow(100, 60, 200, 1.5);
            && c.difficulty == difficulty
            && c.maxRange == row.maxRange && c.baseScore == row.baseScore
            && Max(20, row.timeLimit - 5) <= c.timeLimit <= Max(20, row.timeLimit + 5)
            && c.timeLimit >= 20
            && 1 <= c.targetNumber <= c.maxRange
            && (c.useProximityBonus <==> bonusDraw > 0.7)
  {
    var v := FloorDraw(timeDraw, 11) - 5;
    assert -5 <= v <= 5;
  }

  /** The speed mode's `getConfig` input built from a generated challenge. */
  function AsSpeedInput(c: Challenge): GameModes.SpeedInput {
    GameModes.SpeedInput(Some(c.maxRange), Some(c.timeLimit), Some(c.targetNumber), Some(c.difficulty),
      Some(c.baseScore), c.useProximityBonus)
  }

  /** Every generated challenge passes speed mode's `getConfig`, which keeps its target and time limit. */
  lemma GeneratedChallengeConfigures(difficulty: string, timeDraw: real, targetDraw: real, bonusDraw: real)
    requires 0.0 <= timeDraw < 1.0 && 0.0 <= targetDraw < 1.0 && 0.0 <= bonusDraw < 1.0
    ensures var c := GenerateChallenge(difficulty, timeDraw, targetDraw, bonusDraw);
            && GameModes.SpeedConfig(Some(AsSpeedInput(c))).Some?
            && GameModes.SpeedConfig(Some(AsSpeedInput(c))).value.targetNumber == Some(c.targetNumber)
            && GameModes.SpeedConfig(Some(AsSpeedInput(c))).value.timerDuration == Some(c.timeLimit)
  {
    GenerateChallengeShape(difficulty, timeDraw, targetDraw, bonusDraw);
  }

  /** The integer parts of `calculateScore`'s breakdown. */
  datatype ScoreParts = ScoreParts(base: int, efficiency: int, proximity: int)

  /** `Math.max(0, (20 - guessCount) * 10)`. */
  function EfficiencyBonus(guessCount: int): int {
    Max(0, (20 - guessCount) * 10)
  }

  /** `useProximityBonus ? 50 : 0`. */
  function ProximityBonus(useProximityBonus: bool): int {
    if useProximityBonus then 50 else 0
  }

  function CalculateScore(c: Challenge, guessCount: int): ScoreParts {
    ScoreParts(c.baseScore, EfficiencyBonus(guessCount), ProximityBonus(c.useProximityBonus))
  }

  /**
   * The efficiency bonus is never negative, is 0 from 20 guesses on, and
   * falls by 10 per extra guess below that; the proximity bonus is 50 exactly
   * when the challenge has it.
   */
  lemma ScoreBonuses(c: Challenge, guessCount: int)
    ensures CalculateScore(c, guessCount).efficiency >= 0
    ensures CalculateScore(c, guessCount).efficiency == 0 <==> guessCount >= 20
    ensures guessCount < 20 ==> CalculateScore(c, guessCount).efficiency == 200 - 10 * guessCount
    ensures CalculateScore(c, guessCount).proximity == 50 <==> c.useProximityBonus
    ensures CalculateScore(c, guessCount).proximity in {0, 50}
    ensures CalculateScore(c, guessCount).base == c.baseScore
  {
  }

  /** Fewer guesses never earn a smaller efficiency bonus. */
  lemma EfficiencyMonotone(g1: int, g2: int)
    requires g1 <= g2
    ensures EfficiencyBonus(g1) >= EfficiencyBonus(g2)
  {
  }

  /** One difficulty's speed counters. */
  datatype SpeedBucket = SpeedBucket(
    games: int,
    wins: int,
    bestTime: Option<int>,
    bestGuesses: Option<int>,
    totalGuesses: int)

  const EMPTY_SPEED_BUCKET: SpeedBucket := SpeedBucket(0, 0, None, None, 0)

  /** The speed statistics record: overall counters plus one bucket per difficulty key. */
  datatype SpeedStats = SpeedStats(
    totalGames: int,
    totalWins: int,
    bestTime: Option<int>,
    buckets: map<string, SpeedBucket>)

  /** The best value after a game: updated only on a win. */
  function BestAfter(won: bool, best: Option<int>, value: int): Option<int> {
    if won then Some(TruthyMin(best, value)) else best
  }

  /** The bucket of a difficulty, or the empty bucket when there is none. */
  function BucketOf(stats: SpeedStats, difficulty: string): SpeedBucket {
    if difficulty in stats.buckets then stats.buckets[difficulty] else EMPTY_SPEED_BUCKET
  }

  /**
   * `updateStats(won, challenge, timeRemaining, guessCount)` on the current
   * speed statistics: the new record and the score, which exists only for a win.
   */
  function UpdateStats(stats: SpeedStats, won: bool, c: Challenge, timeRemaining: int, guessCount: int): (SpeedStats, Option<ScoreParts>) {
    var timeTaken := c.timeLimit - timeRemaining;
    var score := if won then Some(CalculateScore(c, guessCount)) else None;
    var d := BucketOf(stats, c.difficulty);
    var bucket := SpeedBucket(
      d.games + 1,
      if won then d.wins + 1 else d.wins,
      BestAfter(won, d.bestTime, timeTaken),
      BestAfter(won, d.bestGuesses, guessCount),
      d.totalGuesses + guessCount);
    var updated := SpeedStats(
      stats.totalGames + 1,
      if won then stats.totalWins + 1 else stats.totalWins,
      BestAfter(won, stats.bestTime, timeTaken),
      stats.buckets[c.difficulty := bucket]);
    (updated, score)
  }

  /**
   * `updateStats` as the source writes it, on an object with the methods
   * `methods`: the first statement awaits `Storage.getSpeedStats()` and the
   * last `Storage.saveSpeedStats(...)`, so it settles with the fold on what
   * the getter returns (`fetched`) only when both exist, and otherwise
   * rejects before any counter is written.
   */
  function UpdateStatsAsWritten(methods: set<string>, fetched: SpeedStats, won: bool, c: Challenge, timeRemaining: int, guessCount: int)
    : (r: Storage.Call<(SpeedStats, Option<ScoreParts>)>)
    ensures r.Resolved? <==> "getSpeedStats" in methods && "saveSpeedStats" in methods
    ensures r.Resolved? ==> r.value == UpdateStats(fetched, won, c, timeRemaining, guessCount)
    ensures "getSpeedStats" !in methods ==> r == Storage.TypeError("getSpeedStats")
  {
    if "getSpeedStats" !in methods then Storage.TypeError("getSpeedStats")
    else
      var result := UpdateStats(fetched, won, c, timeRemaining, guessCount);
      if "saveSpeedStats" !in methods then Storage.TypeError("saveSpeedStats") else Storage.Resolved(result)
  }

  /** On the `Storage` object storage.js defines, `updateStats` always rejects, whatever was played. */
  lemma UpdateStatsAlwaysRejects(fetched: SpeedStats, won: bool, c: Challenge, timeRemaining: int, guessCount: int)
    ensures UpdateStatsAsWritten(Storage.STORAGE_METHODS, fetched, won, c, timeRemaining, guessCount)
              == Storage.TypeError("getSpeedStats")
  {
    Storage.ModeStatsAccessorsMissing();
  }

  /** The score is present exactly for a win. */
  lemma ScoreOnlyOnWin(stats: SpeedStats, won: bool, c: Challenge, timeRemaining: int, guessCount: int)
    ensures UpdateStats(stats, won, c, timeRemaining, guessCount).1.Some? <==> won
    ensures won ==> UpdateStats(stats, won, c, timeRemaining, guessCount).1 == Some(CalculateScore(c, guessCount))
  {
  }

  /**
   * The counters of the fold: one more game overall and in the difficulty's
   * bucket, one more win exactly on a win, the guesses always added, and
   * every other bucket unchanged.
   */
  lemma UpdateStatsCounters(stats: SpeedStats, won: bool, c: Challenge, timeRemaining: int, guessCount: int)
    ensures var s := UpdateStats(stats, won, c, timeRemaining, guessCount).0;
            var old_ := BucketOf(stats, c.difficulty);
            && s.totalGames == stats.totalGames + 1
            && s.totalWins == stats.totalWins + (if won then 1 else 0)
            && c.difficulty in s.buckets
            && s.buckets[c.difficulty].games == old_.games + 1
            && s.buckets[c.difficulty].wins == old_.wins + (if won then 1 else 0)
            && s.buckets[c.difficulty].totalGuesses == old_.totalGuesses + guessCount
            && s.buckets.Keys == stats.buckets.Keys + {c.difficulty}
            && (forall k :: k in stats.buckets && k != c.difficulty ==> s.buckets[k] == stats.buckets[k])
  {
  }

  /**
   * The best time and best guess count change only on a win, where they
   * become the smaller of the old and the new value, or the new value when
   * the old one is unset or 0.
   */
  lemma UpdateStatsBests(stats: SpeedStats, won: bool, c: Challenge, timeRemaining: int, guessCount: int)
    ensures var s := UpdateStats(stats, won, c, timeRemaining, guessCount).0;
            var old_ := BucketOf(stats, c.difficulty);
            var b := s.buckets[c.difficulty];
            && (!won ==> b.bestTime == old_.bestTime && b.bestGuesses == old_.bestGuesses && s.bestTime == stats.bestTime)
            && (won && Truthy(old_.bestGuesses) ==> b.bestGuesses == Some(Min(old_.bestGuesses.value, guessCount)))
            && (won && !Truthy(old_.bestGuesses) ==> b.bestGuesses == Some(guessCount))
            && (won && Truthy(old_.bestTime) ==> b.bestTime == Some(Min(old_.bestTime.value, c.timeLimit - timeRemaining)))
            && (won && !Truthy(old_.bestTime) ==> b.bestTime == Some(c.timeLimit - timeRemaining))
            && (won && Truthy(stats.bestTime) ==> s.bestTime == Some(Min(stats.bestTime.value, c.timeLimit - timeRemaining)))
            && (won && !Truthy(stats.bestTime) ==> s.bestTime == Some(c.timeLimit - timeRemaining))
  {
  }

  /** Wins never outnumber games, overall and per difficulty, and counters stay non-negative. */
  ghost predicate SpeedInvariant(s: SpeedStats) {
    && 0 <= s.totalWins <= s.totalGames
    && forall k :: k in s.buckets ==> 0 <= s.buckets[k].wins <= s.buckets[k].games && s.buckets[k].totalGuesses >= 0
  }

  lemma UpdateStatsPreservesInvariant(stats: SpeedStats, won: bool, c: Challenge, timeRemaining: int, guessCount: int)
    requires SpeedInvariant(stats) && guessCount >= 0
    ensures SpeedInvariant(UpdateStats(stats, won, c, timeRemaining, guessCount).0)
  {
    UpdateStatsCounters(stats, won, c, timeRemaining, guessCount);
  }

  /** A set best value only ever improves: after a win it is no larger than before. */
  lemma BestNeverWorsens(stats: SpeedStats, won: bool, c: Challenge, timeRemaining: int, guessCount: int)
    requires Truthy(BucketOf(stats, c.difficulty).bestGuesses)
    ensures UpdateStats(stats, won, c, timeRemaining, guessCount).0.buckets[c.difficulty].bestGuesses.value
            <= BucketOf(stats, c.difficulty).bestGuesses.value
  {
  }
}
