/**
 * Puzzle challenges: the per-difficulty configuration table, choosing a
 * generated puzzle from a catalog and checking it, building the challenge
 * record, and the statistics update after a finished puzzle, which changes
 * the statistics object in place.
 */
module PuzzleChallenge {
  import opened Wrappers
  import opened JsOps
  import GameModes
  import Storage

  /** One row of `DIFFICULTY_CONFIGS`. */
  datatype PuzzleRow = PuzzleRow(maxAttempts: int, timeLimit: int, hintsAvailable: int, pointsMultiplier: real)

  /** `DIFFICULTY_CONFIGS[difficulty]`, `None` when the table has no such key. */
  function DifficultyConfig(difficulty: string): Option<PuzzleRow> {
    if difficulty == "easy" then Some(PuzzleRow(7, 240, 3, 1.0))
    else if difficulty == "medium" then Some(PuzzleRow(5, 180, 2, 1.5))
    else if difficulty == "hard" then Some(PuzzleRow(4, 120, 1, 2.0))
    else if difficulty == "extreme" then Some(PuzzleRow(3, 90, 1, 3.0))
    else None
  }

  /** The four rows: harder levels give fewer attempts, less time and no more hints. */
  lemma DifficultyConfigRows(k1: string, k2: string)
    ensures DifficultyConfig("easy") == Some(PuzzleRow(7, 240, 3, 1.0))
    ensures DifficultyConfig("medium") == Some(PuzzleRow(5, 180, 2, 1.5))
    ensures DifficultyConfig("hard") == Some(PuzzleRow(4, 120, 1, 2.0))
    ensures DifficultyConfig("extreme") == Some(PuzzleRow(3, 90, 1, 3.0))
    ensures DifficultyConfig(k1).Some? <==> k1 in {"easy", "medium", "hard", "extreme"}
    ensures DifficultyConfig(k1).Some? && DifficultyConfig(k2).Some?
            && DifficultyConfig(k1).value.maxAttempts > DifficultyConfig(k2).value.maxAttempts ==>
              DifficultyConfig(k1).value.timeLimit > DifficultyConfig(k2).value.timeLimit
              && DifficultyConfig(k1).value.hintsAvailable >= DifficultyConfig(k2).value.hintsAvailable
  {
  }

  /**
   * The record a puzzle generator produces. `puzzle` and `hints` are `None`
   * when missing; `solution` is `None` when missing or not numeric.
   */
  datatype PuzzleData = PuzzleData(
    puzzle: Option<string>,
    solution: Option<int>,
    hints: Option<seq<string>>,
    maxRange: Option<int>)

  /** The challenge record `_buildChallenge` returns (id and type display data left out). */
  datatype Challenge = Challenge(
    puzzleType: string,
    difficulty: string,
    puzzle: string,
    solution: int,
    hints: seq<string>,
    maxAttempts: int,
    timeLimit: int,
    hintsAvailable: int,
    hintsUsed: int,
    maxRange: int,
    pointsMultiplier: real)

  /**
   * What `generateChallenge` yields: a challenge, `null`, or a `TypeError`
   * raised outside its `try` block.
   */
  datatype Generated = Built(challenge: Challenge) | NoChallenge | Throws

  /**
   * `_buildChallenge(puzzleData, selectedType, difficulty, config)`: a
   * non-numeric solution gives `null`; past that, reading the fields of a
   * missing configuration raises.
   */
  function BuildChallenge(data: PuzzleData, selectedType: string, difficulty: string, config: Option<PuzzleRow>): Generated {
    var hints := if data.hints.Some? then data.hints.value else [];
    if data.solution.None? then NoChallenge
    else if config.None? then Throws
    else
      var row := config.value;
      Built(Challenge(
        selectedType, difficulty, if TruthyString(data.puzzle) then data.puzzle.value else "Solve this puzzle",
        data.solution.value, hints, row.maxAttempts, row.timeLimit, Min(row.hintsAvailable, |hints|), 0,
        OrElse(data.maxRange, 100), row.pointsMultiplier))
  }

  /**
   * A numeric solution and a configuration give a challenge with the
   * solution, the row's attempts and time, a range defaulting to 100 and
   * never more hints on offer than there are hints.
   */
  lemma BuildChallengeCases(data: PuzzleData, selectedType: string, difficulty: string, config: Option<PuzzleRow>)
    ensures BuildChallenge(data, selectedType, difficulty, config) == NoChallenge <==> data.solution.None?
    ensures BuildChallenge(data, selectedType, difficulty, config) == Throws <==> data.solution.Some? && config.None?
    ensures BuildChallenge(data, selectedType, difficulty, config).Built? ==>
              var c := BuildChallenge(data, selectedType, difficulty, config).challenge;
              && c.solution == data.solution.value
              && c.maxAttempts == config.value.maxAttempts && c.timeLimit == config.value.timeLimit
              && c.hintsAvailable <= |c.hints| && c.hintsAvailable <= config.value.hintsAvailable
              && (c.hintsAvailable == config.value.hintsAvailable || c.hintsAvailable == |c.hints|)
              && c.hintsUsed == 0
              && (if Truthy(data.maxRange) then c.maxRange == data.maxRange.value else c.maxRange == 100)
              && c.puzzle != ""
  {
  }

  /** The generators of one type: difficulty keys in insertion order, each with what its generators produce. */
  type TypeCatalog = seq<(string, seq<PuzzleData>)>

  /** `generatorsForType[key]`, `None` when the type has no such key. */
  function Generators(entries: TypeCatalog, key: string): Option<seq<PuzzleData>> {
    if entries == [] then None
    else if entries[0].0 == key then Some(entries[0].1)
    else Generators(entries[1..], key)
  }

  /** `Object.keys(PUZZLE_TYPES)`. */
  const PUZZLE_TYPE_KEYS: seq<string> := ["mathematical", "logical", "pattern", "wordplay"]

  /** A falsy or empty list of generators. */
  predicate NoGenerators(g: Option<seq<PuzzleData>>) {
    g.None? || |g.value| == 0
  }

  /** The list the fallback path draws from: `easy`, or else the first key's list. */
  function FallbackGenerators(entries: TypeCatalog): Option<seq<PuzzleData>> {
    if Generators(entries, "easy").Some? then Generators(entries, "easy")
    else if entries == [] then None
    else Some(entries[0].1)
  }

  /**
   * `generateChallenge(difficulty, puzzleType)` over a catalog of generator
   * output, the two `Math.random()` draws given as `typeDraw` and `pick`.
   * The main path checks the puzzle's fields for truthiness, and its errors
   * are caught; the fallback path checks nothing and does not catch.
   */
  function GenerateChallenge(catalog: map<string, TypeCatalog>, difficulty: string, puzzleType: Option<string>,
                             typeDraw: real, pick: real): Generated
    requires 0.0 <= typeDraw < 1.0 && 0.0 <= pick < 1.0
  {
    var config := DifficultyConfig(difficulty);
    var selectedType := if TruthyString(puzzleType) then puzzleType.value else PUZZLE_TYPE_KEYS[FloorDraw(typeDraw, 4)];
    if selectedType !in catalog then NoChallenge
    else
      var entries := catalog[selectedType];
      var forDifficulty := Generators(entries, difficulty);
      if NoGenerators(forDifficulty) then
        var fallback := FallbackGenerators(entries);
        if NoGenerators(fallback) then NoChallenge
        else
          var data := fallback.value[FloorDraw(pick, |fallback.value|)];
          BuildChallenge(data, selectedType, difficulty, config)
      else
        var data := forDifficulty.value[FloorDraw(pick, |forDifficulty.value|)];
        if !TruthyString(data.puzzle) || !Truthy(data.solution) || data.hints.None? then NoChallenge
        else if config.None? then NoChallenge
        else BuildChallenge(data, selectedType, difficulty, config)
  }

  /**
   * An unknown type gives `null`; on the main path a puzzle with a falsy
   * solution, 0 included, gives `null`; the call can raise only on the
   * fallback path, for a difficulty the table does not have.
   */
  lemma GenerateChallengeRejects(catalog: map<string, TypeCatalog>, difficulty: string, puzzleType: Option<string>,
                                 typeDraw: real, pick: real)
    requires 0.0 <= typeDraw < 1.0 && 0.0 <= pick < 1.0
    ensures TruthyString(puzzleType) && puzzleType.value !in catalog ==>
              GenerateChallenge(catalog, difficulty, puzzleType, typeDraw, pick) == NoChallenge
    ensures var selectedType := if TruthyString(puzzleType) then puzzleType.value else PUZZLE_TYPE_KEYS[FloorDraw(typeDraw, 4)];
            selectedType in catalog && !NoGenerators(Generators(catalog[selectedType], difficulty)) ==>
              var g := Generators(catalog[selectedType], difficulty).value;
              var data := g[FloorDraw(pick, |g|)];
              (!Truthy(data.solution) ==> GenerateChallenge(catalog, difficulty, puzzleType, typeDraw, pick) == NoChallenge)
              && GenerateChallenge(catalog, difficulty, puzzleType, typeDraw, pick) != Throws
    ensures GenerateChallenge(catalog, difficulty, puzzleType, typeDraw, pick) == Throws ==>
              DifficultyConfig(difficulty).None?
  {
  }

  /** `getAvailablePuzzleCount(type, difficulty)`: 999 for each generator the type lists under the difficulty. */
  function AvailablePuzzleCount(catalog: map<string, TypeCatalog>, puzzleType: string, difficulty: string): (n: int)
    ensures n >= 0 && n % 999 == 0
  {
    if puzzleType !in catalog then 0
    else
      var g := Generators(catalog[puzzleType], difficulty);
      if g.None? then 0 else |g.value| * 999
  }

  /**
   * The count is positive exactly when `generateChallenge` for that type and
   * difficulty takes its main, validated path rather than the fallback.
   */
  lemma AvailableMeansMainPath(catalog: map<string, TypeCatalog>, puzzleType: string, difficulty: string)
    ensures AvailablePuzzleCount(catalog, puzzleType, difficulty) > 0 <==>
              puzzleType in catalog && !NoGenerators(Generators(catalog[puzzleType], difficulty))
    ensures AvailablePuzzleCount(catalog, puzzleType, difficulty) > 0 ==>
              AvailablePuzzleCount(catalog, puzzleType, difficulty) == 999 * |Generators(catalog[puzzleType], difficulty).value|
  {
  }

  /** A challenge is built only for a difficulty the table has, with that row's attempts and time. */
  lemma GeneratedChallengeShape(catalog: map<string, TypeCatalog>, difficulty: string, puzzleType: Option<string>,
                                typeDraw: real, pick: real)
    requires 0.0 <= typeDraw < 1.0 && 0.0 <= pick < 1.0
    requires GenerateChallenge(catalog, difficulty, puzzleType, typeDraw, pick).Built?
    ensures var c := GenerateChallenge(catalog, difficulty, puzzleType, typeDraw, pick).challenge;
            && DifficultyConfig(difficulty).Some?
            && c.maxAttempts == DifficultyConfig(difficulty).value.maxAttempts
            && c.timeLimit == DifficultyConfig(difficulty).value.timeLimit
            && c.hintsAvailable <= |c.hints|
            && c.difficulty == difficulty
  {
    var selectedType := if TruthyString(puzzleType) then puzzleType.value else PUZZLE_TYPE_KEYS[FloorDraw(typeDraw, 4)];
    var entries := catalog[selectedType];
    var forDifficulty := Generators(entries, difficulty);
    if NoGenerators(forDifficulty) {
      var fallback := FallbackGenerators(entries);
      BuildChallengeCases(fallback.value[FloorDraw(pick, |fallback.value|)], selectedType, difficulty, DifficultyConfig(difficulty));
    } else {
      BuildChallengeCases(forDifficulty.value[FloorDraw(pick, |forDifficulty.value|)], selectedType, difficulty, DifficultyConfig(difficulty));
    }
  }

  /** The puzzle mode's `getConfig` input built from a challenge. */
  function AsPuzzleInput(c: Challenge): GameModes.PuzzleInput {
    GameModes.PuzzleInput(GameModes.Present(Some(c.solution)), Some(c.puzzle), Some(c.hints), Some(c.maxAttempts),
      Some(c.timeLimit), Some(c.difficulty), Some(c.puzzleType), Some(c.maxRange), Some(c.hintsAvailable))
  }

  /**
   * A built challenge starts a puzzle game exactly when it has at least one
   * hint; the game then has the challenge's solution as target and its
   * attempts as trial budget.
   */
  lemma BuiltChallengeConfigures(data: PuzzleData, selectedType: string, difficulty: string, config: Option<PuzzleRow>)
    requires BuildChallenge(data, selectedType, difficulty, config).Built?
    requires Truthy(Some(config.value.maxAttempts))
    ensures var c := BuildChallenge(data, selectedType, difficulty, config).challenge;
            && (GameModes.PuzzleConfig(Some(AsPuzzleInput(c))).Some? <==> |c.hints| > 0)
            && (GameModes.PuzzleConfig(Some(AsPuzzleInput(c))).Some? ==>
                  GameModes.PuzzleConfig(Some(AsPuzzleInput(c))).value.targetNumber == Some(c.solution)
                  && GameModes.PuzzleConfig(Some(AsPuzzleInput(c))).value.trials == GameModes.Finite(c.maxAttempts))
  {
    BuildChallengeCases(data, selectedType, difficulty, config);
  }

  /** A puzzle type's bucket in the statistics. */
  datatype TypeBucket = TypeBucket(
    games: int,
    wins: int,
    totalAttempts: int,
    bestAttempts: Option<int>,
    bestTime: Option<int>,
    totalHintsUsed: Option<int>)

  /** A difficulty's bucket in the puzzle statistics. */
  datatype DifficultyBucket = DifficultyBucket(
    games: int,
    wins: int,
    bestTime: Option<int>,
    totalHintsUsed: Option<int>)

  const NEW_TYPE_BUCKET: TypeBucket := TypeBucket(0, 0, 0, None, None, Some(0))
  const NEW_DIFFICULTY_BUCKET: DifficultyBucket := DifficultyBucket(0, 0, None, Some(0))

  /** `best === null || value < best ? value : best`: a running minimum where only `null` is unset. */
  function NullMin(best: Option<int>, value: int): (r: Option<int>)
    ensures r.Some? && r.value <= value
    ensures best.Some? ==> r.value == Min(best.value, value)
    ensures best.None? ==> r == Some(value)
  {
    if best.None? || value < best.value then Some(value) else best
  }

  /** The type bucket after a game, from the bucket before it (`None` when missing). */
  function TypeBucketAfter(b0: Option<TypeBucket>, won: bool, attemptsUsed: int, timeUsed: int, hintsUsed: int): TypeBucket {
    var b := if b0.Some? then b0.value else NEW_TYPE_BUCKET;
    var b := b.(games := b.games + 1);
    var b := if won then b.(wins := b.wins + 1, totalAttempts := b.totalAttempts + attemptsUsed,
                            bestAttempts := NullMin(b.bestAttempts, attemptsUsed), bestTime := NullMin(b.bestTime, timeUsed))
             else b;
    b.(totalHintsUsed := Some(OrElse(b.totalHintsUsed, 0) + hintsUsed))
  }

  /** The difficulty bucket after a game. */
  function DifficultyBucketAfter(b0: Option<DifficultyBucket>, won: bool, timeUsed: int, hintsUsed: int): DifficultyBucket {
    var b := if b0.Some? then b0.value else NEW_DIFFICULTY_BUCKET;
    var b := b.(games := b.games + 1);
    var b := if won then b.(wins := b.wins + 1, bestTime := NullMin(b.bestTime, timeUsed)) else b;
    b.(totalHintsUsed := Some(OrElse(b.totalHintsUsed, 0) + hintsUsed))
  }

  function Lookup<V>(m: map<string, V>, k: string): Option<V> {
    if k in m then Some(m[k]) else None
  }

  /**
   * On a win the type bucket counts a game and a win, adds the attempts and
   * keeps the minimum attempts and time (`null` meaning unset, 0 a real
   * best); on a loss only the game and the hints are counted.
   */
  lemma TypeBucketAfterCases(b0: Option<TypeBucket>, won: bool, attemptsUsed: int, timeUsed: int, hintsUsed: int)
    ensures var old_ := if b0.Some? then b0.value else NEW_TYPE_BUCKET;
            var b := TypeBucketAfter(b0, won, attemptsUsed, timeUsed, hintsUsed);
            && b.games == old_.games + 1
            && b.wins == old_.wins + (if won then 1 else 0)
            && b.totalAttempts == old_.totalAttempts + (if won then attemptsUsed else 0)
            && (won ==>
                  && b.bestAttempts.Some? && b.bestAttempts.value <= attemptsUsed
                  && (old_.bestAttempts.Some? ==> b.bestAttempts.value == Min(old_.bestAttempts.value, attemptsUsed))
                  && b.bestTime.Some? && b.bestTime.value <= timeUsed
                  && (old_.bestTime.Some? ==> b.bestTime.value == Min(old_.bestTime.value, timeUsed)))
            && (!won ==> b.bestAttempts == old_.bestAttempts && b.bestTime == old_.bestTime)
            && b.totalHintsUsed == Some(OrElse(old_.totalHintsUsed, 0) + hintsUsed)
  {
  }

  lemma DifficultyBucketAfterCases(b0: Option<DifficultyBucket>, won: bool, timeUsed: int, hintsUsed: int)
    ensures var old_ := if b0.Some? then b0.value else NEW_DIFFICULTY_BUCKET;
            var b := DifficultyBucketAfter(b0, won, timeUsed, hintsUsed);
            && b.games == old_.games + 1
            && b.wins == old_.wins + (if won then 1 else 0)
            && (won ==>
                  && b.bestTime.Some? && b.bestTime.value <= timeUsed
                  && (old_.bestTime.Some? ==> b.bestTime.value == Min(old_.bestTime.value, timeUsed)))
            && (!won ==> b.bestTime == old_.bestTime)
  {
  }

  /**
   * How far `updateStats` as the source writes it gets, on an object with
   * the methods `methods`: it first awaits `getStats()`, which awaits
   * `Storage.getPuzzleStats()`, and last `Storage.savePuzzleStats(stats)`.
   * `Resolved` means the fold `PuzzleStats.UpdateStats` runs on the fetched
   * object and is saved; a missing getter rejects before any field changes.
   */
  function UpdateStatsAsWritten(methods: set<string>): (r: Storage.Call<()>)
    ensures r.Resolved? <==> "getPuzzleStats" in methods && "savePuzzleStats" in methods
    ensures "getPuzzleStats" !in methods ==> r == Storage.TypeError("getPuzzleStats")
  {
    if "getPuzzleStats" !in methods then Storage.TypeError("getPuzzleStats")
    else if "savePuzzleStats" !in methods then Storage.TypeError("savePuzzleStats")
    else Storage.Resolved(())
  }

  /** On the `Storage` object storage.js defines, `updateStats` (and `getStats`) always reject. */
  lemma UpdateStatsAlwaysRejects()
    ensures UpdateStatsAsWritten(Storage.STORAGE_METHODS) == Storage.TypeError("getPuzzleStats")
  {
    Storage.ModeStatsAccessorsMissing();
  }

  /** The puzzle statistics object, whose fields `updateStats` changes in place. */
  class PuzzleStats {
    var byType: map<string, TypeBucket>
    var byDifficulty: map<string, DifficultyBucket>
    var totalGames: int
    var totalWins: int
    var totalLosses: int
    var currentWinStreak: int
    var longestWinStreak: int
    var bestTime: Option<int>
    var totalHintsUsed: Option<int>

    /**
     * Every game is a win or a loss, counters are non-negative, the longest
     * streak bounds the current one and no bucket has more wins than games.
     */
    ghost predicate Valid()
      reads this
    {
      && 0 <= totalWins && 0 <= totalLosses && 0 <= currentWinStreak
      && totalGames == totalWins + totalLosses
      && currentWinStreak <= longestWinStreak
      && currentWinStreak <= totalWins
      && (forall k :: k in byType ==> 0 <= byType[k].wins <= byType[k].games)
      && (forall k :: k in byDifficulty ==> 0 <= byDifficulty[k].wins <= byDifficulty[k].games)
    }

    /**
     * `updateStats(won, puzzleChallenge, timeRemaining, attemptsUsed,
     * hintsUsed)`: the buckets of the challenge's type and difficulty are
     * created when missing and updated, then the overall counters; the time
     * used is the challenge's limit minus the time remaining.
     */
    method UpdateStats(won: bool, challenge: Challenge, timeRemaining: int, attemptsUsed: int, hintsUsed: int)
      modifies this
      ensures byType == old(byType)[challenge.puzzleType :=
                TypeBucketAfter(Lookup(old(byType), challenge.puzzleType), won, attemptsUsed,
                                challenge.timeLimit - timeRemaining, hintsUsed)]
      ensures byDifficulty == old(byDifficulty)[challenge.difficulty :=
                DifficultyBucketAfter(Lookup(old(byDifficulty), challenge.difficulty), won,
                                      challenge.timeLimit - timeRemaining, hintsUsed)]
      ensures totalGames == old(totalGames) + 1
      ensures totalHintsUsed == Some(OrElse(old(totalHintsUsed), 0) + hintsUsed)
      ensures won ==> totalWins == old(totalWins) + 1 && totalLosses == old(totalLosses)
                      && currentWinStreak == old(currentWinStreak) + 1
                      && longestWinStreak == Max(old(longestWinStreak), old(currentWinStreak) + 1)
                      && bestTime == NullMin(old(bestTime), challenge.timeLimit - timeRemaining)
      ensures !won ==> totalWins == old(totalWins) && totalLosses == old(totalLosses) + 1
                       && currentWinStreak == 0 && longestWinStreak == old(longestWinStreak)
                       && bestTime == old(bestTime)
      ensures old(Valid()) ==> Valid()
    {
      var timeUsed := challenge.timeLimit - timeRemaining;
      ghost var wasValid := Valid();
      UpdateTypeBucket(won, challenge.puzzleType, attemptsUsed, timeUsed, hintsUsed);
      UpdateDifficultyBucket(won, challenge.difficulty, timeUsed, hintsUsed);
      UpdateOverall(won, timeUsed, hintsUsed);
      if wasValid {
        TypeBucketAfterCases(Lookup(old(byType), challenge.puzzleType), won, attemptsUsed, timeUsed, hintsUsed);
        DifficultyBucketAfterCases(Lookup(old(byDifficulty), challenge.difficulty), won, timeUsed, hintsUsed);
      }
    }

    /** The type's bucket, created when missing, counts the game. */
    method UpdateTypeBucket(won: bool, puzzleType: string, attemptsUsed: int, timeUsed: int, hintsUsed: int)
      modifies this`byType
      ensures byType == old(byType)[puzzleType :=
                TypeBucketAfter(Lookup(old(byType), puzzleType), won, attemptsUsed, timeUsed, hintsUsed)]
    {
      if puzzleType !in byType {
        byType := byType[puzzleType := NEW_TYPE_BUCKET];
      }
      var t := byType[puzzleType];
      t := t.(games := t.games + 1);
      if won {
        t := t.(wins := t.wins + 1);
        t := t.(totalAttempts := t.totalAttempts + attemptsUsed);
        if t.bestAttempts.None? || attemptsUsed < t.bestAttempts.value {
          t := t.(bestAttempts := Some(attemptsUsed));
        }
        if t.bestTime.None? || timeUsed < t.bestTime.value {
          t := t.(bestTime := Some(timeUsed));
        }
      }
      t := t.(totalHintsUsed := Some(OrElse(t.totalHintsUsed, 0) + hintsUsed));
      byType := byType[puzzleType := t];
    }

    /** The difficulty's bucket, created when missing, counts the game. */
    method UpdateDifficultyBucket(won: bool, difficulty: string, timeUsed: int, hintsUsed: int)
      modifies this`byDifficulty
      ensures byDifficulty == old(byDifficulty)[difficulty :=
                DifficultyBucketAfter(Lookup(old(byDifficulty), difficulty), won, timeUsed, hintsUsed)]
    {
      if difficulty !in byDifficulty {
        byDifficulty := byDifficulty[difficulty := NEW_DIFFICULTY_BUCKET];
      }
      var d := byDifficulty[difficulty];
      d := d.(games := d.games + 1);
      if won {
        d := d.(wins := d.wins + 1);
        if d.bestTime.None? || timeUsed < d.bestTime.value {
          d := d.(bestTime := Some(timeUsed));
        }
      }
      d := d.(totalHintsUsed := Some(OrElse(d.totalHintsUsed, 0) + hintsUsed));
      byDifficulty := byDifficulty[difficulty := d];
    }

    /** The overall counters, streaks and best time. */
    method UpdateOverall(won: bool, timeUsed: int, hintsUsed: int)
      modifies this`totalGames, this`totalHintsUsed, this`totalWins, this`totalLosses
      modifies this`currentWinStreak, this`longestWinStreak, this`bestTime
      ensures totalGames == old(totalGames) + 1
      ensures totalHintsUsed == Some(OrElse(old(totalHintsUsed), 0) + hintsUsed)
      ensures won ==> totalWins == old(totalWins) + 1 && totalLosses == old(totalLosses)
                      && currentWinStreak == old(currentWinStreak) + 1
                      && longestWinStreak == Max(old(longestWinStreak), old(currentWinStreak) + 1)
                      && bestTime == NullMin(old(bestTime), timeUsed)
      ensures !won ==> totalWins == old(totalWins) && totalLosses == old(totalLosses) + 1
                       && currentWinStreak == 0 && longestWinStreak == old(longestWinStreak)
                       && bestTime == old(bestTime)
    {
      totalGames := totalGames + 1;
      totalHintsUsed := Some(OrElse(totalHintsUsed, 0) + hintsUsed);
      if won {
        totalWins := totalWins + 1;
        currentWinStreak := currentWinStreak + 1;
        longestWinStreak := Max(longestWinStreak, currentWinStreak);
        if bestTime.None? || timeUsed < bestTime.value {
          bestTime := Some(timeUsed);
        }
      } else {
        totalLosses := totalLosses + 1;
        currentWinStreak := 0;
      }
    }
  }
}
