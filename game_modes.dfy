/**
 * The game-mode registry: four modes (classic, daily, speed, puzzle), each
 * building a configuration from its challenge record, producing the target,
 * validating a parsed guess and turning an accepted guess into the next game
 * state. Every operation is pure: it returns a fresh record.
 */
module GameModes {
  import opened Wrappers
  import opened JsOps
  import opened Difficulties
  import opened GameLogic

  datatype ModeId = Classic | Daily | Speed | Puzzle

  /** A trial budget: a count, or JavaScript's `Infinity` for speed mode. */
  datatype Trials = Finite(n: int) | Unbounded

  datatype Status = Playing | Won | Lost

  /** The mode-specific part of a configuration. */
  datatype Extra =
    | NoExtra
    | DailyExtra(date: Option<string>)
    | SpeedExtra(useProximityBonus: bool, baseScore: Option<int>)
    | PuzzleExtra(puzzleText: string, puzzleHints: seq<string>, hintsAvailable: int, hintsUsed: int, puzzleType: string)

  /** The configuration object `getConfig` returns (display-only fields left out). */
  datatype GameConfig = GameConfig(
    mode: ModeId,
    difficulty: Option<string>,
    hasTimer: bool,
    timerDuration: Option<int>,
    max: int,
    trials: Trials,
    targetNumber: Option<int>,
    specialRule: Option<string>,
    extra: Extra)

  /** `getGameMode(modeId)`: an unknown id falls back to classic. */
  function GetGameMode(modeId: string): (m: ModeId)
    ensures modeId == "daily" <==> m == Daily
    ensures modeId == "speed" <==> m == Speed
    ensures modeId == "puzzle" <==> m == Puzzle
    ensures m == Classic <==> modeId !in {"daily", "speed", "puzzle"}
  {
    if modeId == "daily" then Daily
    else if modeId == "speed" then Speed
    else if modeId == "puzzle" then Puzzle
    else Classic
  }

  /** Classic `getConfig(difficulty)`: an unknown difficulty uses the medium row but is kept as given. */
  function ClassicConfig(difficulty: string): GameConfig {
    var row := if Lookup(difficulty).Some? then Lookup(difficulty).value else MEDIUM;
    GameConfig(Classic, Some(difficulty), false, None, row.max, Finite(row.trials), None, None, NoExtra)
  }

  lemma ClassicConfigFallback(difficulty: string)
    ensures Lookup(difficulty).Some? ==>
              ClassicConfig(difficulty).max == Lookup(difficulty).value.max
              && ClassicConfig(difficulty).trials == Finite(Lookup(difficulty).value.trials)
    ensures Lookup(difficulty).None? ==>
              ClassicConfig(difficulty).max == 100 && ClassicConfig(difficulty).trials == Finite(7)
    ensures ClassicConfig(difficulty).difficulty == Some(difficulty)
    ensures !ClassicConfig(difficulty).hasTimer && ClassicConfig(difficulty).targetNumber == None
  {
  }

  /** The fields of a daily challenge record; `None` is a missing field. */
  datatype DailyInput = DailyInput(
    maxRange: Option<int>,
    trials: Option<int>,
    difficulty: Option<string>,
    targetNumber: Option<int>,
    specialRule: Option<string>,
    date: Option<string>)

  /** `specialRule?.includes(key)`: a missing rule is falsy. */
  predicate RuleIncludes(rule: Option<string>, key: string) {
    rule.Some? && Includes(rule.value, key)
  }

  /** Daily `getConfig(dailyChallenge)`; `None` input stands for a missing or non-object record. */
  function DailyConfig(input: Option<DailyInput>): Option<GameConfig> {
    if input.None? then None
    else
      var d := input.value;
      if !Truthy(d.maxRange) || !Truthy(d.trials) || !Truthy(d.targetNumber) then None
      else if d.targetNumber.value < 1 || d.targetNumber.value > d.maxRange.value then None
      else
        Some(GameConfig(
          Daily, d.difficulty,
          RuleIncludes(d.specialRule, "time_limit"),
          Some(if RuleIncludes(d.specialRule, "time_limit_30") then 30 else 60),
          d.maxRange.value, Finite(d.trials.value), d.targetNumber, d.specialRule,
          DailyExtra(d.date)))
  }

  /**
   * A daily configuration exists exactly when the record is present, its
   * range, trials and target are truthy and the target lies in [1, maxRange];
   * it then carries those values and a 30 or 60 second timer.
   */
  lemma DailyConfigCases(input: Option<DailyInput>)
    ensures DailyConfig(input).Some? <==>
              input.Some? && Truthy(input.value.maxRange) && Truthy(input.value.trials)
              && Truthy(input.value.targetNumber)
              && 1 <= input.value.targetNumber.value <= input.value.maxRange.value
    ensures DailyConfig(input).Some? ==>
              var c, d := DailyConfig(input).value, input.value;
              && c.max == d.maxRange.value && c.trials == Finite(d.trials.value)
              && c.targetNumber == d.targetNumber && c.specialRule == d.specialRule
              && (c.hasTimer <==> RuleIncludes(d.specialRule, "time_limit"))
              && c.timerDuration == Some(if RuleIncludes(d.specialRule, "time_limit_30") then 30 else 60)
  {
  }

  /** The fields of a speed challenge record. */
  datatype SpeedInput = SpeedInput(
    maxRange: Option<int>,
    timeLimit: Option<int>,
    targetNumber: Option<int>,
    difficulty: Option<string>,
    baseScore: Option<int>,
    useProximityBonus: bool)

  /** Speed `getConfig(speedChallenge)`: only falsy fields are refused, with no range check. */
  function SpeedConfig(input: Option<SpeedInput>): Option<GameConfig> {
    if input.None? then None
    else
      var s := input.value;
      if !Truthy(s.maxRange) || !Truthy(s.timeLimit) || !Truthy(s.targetNumber) then None
      else
        Some(GameConfig(
          Speed, s.difficulty, true, s.timeLimit, s.maxRange.value, Unbounded,
          s.targetNumber, Some("unlimited_attempts"),
          SpeedExtra(s.useProximityBonus, s.baseScore)))
  }

  lemma SpeedConfigCases(input: Option<SpeedInput>)
    ensures SpeedConfig(input).Some? <==>
              input.Some? && Truthy(input.value.maxRange) && Truthy(input.value.timeLimit)
              && Truthy(input.value.targetNumber)
    ensures SpeedConfig(input).Some? ==>
              var c := SpeedConfig(input).value;
              && c.hasTimer && c.trials == Unbounded && c.timerDuration == input.value.timeLimit
              && c.targetNumber == input.value.targetNumber
              && c.specialRule == Some("unlimited_attempts")
  {
  }

  /** A puzzle's `solution` field: missing (`undefined`/`null`), or present with its `parseInt` value (`None` for NaN). */
  datatype SolutionField = Absent | Present(parsed: Option<int>)

  /** The fields of a puzzle challenge record; `puzzle` is `None` when missing or not a string, `hints` when not an array. */
  datatype PuzzleInput = PuzzleInput(
    solution: SolutionField,
    puzzle: Option<string>,
    hints: Option<seq<string>>,
    maxAttempts: Option<int>,
    timeLimit: Option<int>,
    difficulty: Option<string>,
    puzzleType: Option<string>,
    maxRange: Option<int>,
    hintsAvailable: Option<int>)

  /** `s || d` for an optional string. */
  function StringOrElse(s: Option<string>, d: string): string {
    if TruthyString(s) then s.value else d
  }

  /** Puzzle `getConfig(puzzleChallenge)`, with its defaults for the optional fields. */
  function PuzzleConfig(input: Option<PuzzleInput>): Option<GameConfig> {
    if input.None? then None
    else
      var p := input.value;
      if p.solution.Absent? then None
      else if !TruthyString(p.puzzle) then None
      else if p.hints.None? || |p.hints.value| == 0 then None
      else if p.solution.parsed.None? then None
      else
        Some(GameConfig(
          Puzzle, Some(StringOrElse(p.difficulty, "medium")), true,
          Some(OrElse(p.timeLimit, 180)), OrElse(p.maxRange, 100), Finite(OrElse(p.maxAttempts, 5)),
          p.solution.parsed, Some("puzzle_solving"),
          PuzzleExtra(p.puzzle.value, p.hints.value,
            OrElse(p.hintsAvailable, Min(3, |p.hints.value|)), 0,
            StringOrElse(p.puzzleType, "mathematical"))))
  }

  /**
   * A puzzle configuration exists exactly when the solution is present and
   * numeric, the puzzle text is a non-empty string and there is at least one
   * hint; missing range, attempts and time default to 100, 5 and 180, and
   * every optional field that is truthy is used as given.
   */
  lemma PuzzleConfigCases(input: Option<PuzzleInput>)
    ensures PuzzleConfig(input).Some? <==>
              input.Some? && input.value.solution.Present? && input.value.solution.parsed.Some?
              && TruthyString(input.value.puzzle)
              && input.value.hints.Some? && |input.value.hints.value| > 0
    ensures PuzzleConfig(input).Some? ==>
              var c, p := PuzzleConfig(input).value, input.value;
              && c.targetNumber == p.solution.parsed
              && (!Truthy(p.maxRange) ==> c.max == 100)
              && (!Truthy(p.maxAttempts) ==> c.trials == Finite(5))
              && (!Truthy(p.timeLimit) ==> c.timerDuration == Some(180))
              && (!TruthyString(p.difficulty) ==> c.difficulty == Some("medium"))
              && (!Truthy(p.hintsAvailable) ==>
                    c.extra.hintsAvailable == Min(3, |p.hints.value|) <= |p.hints.value|)
    ensures PuzzleConfig(input).Some? ==>
              var c, p := PuzzleConfig(input).value, input.value;
              && c.mode == Puzzle && c.hasTimer && c.specialRule == Some("puzzle_solving")
              && (Truthy(p.maxRange) ==> c.max == p.maxRange.value)
              && (Truthy(p.maxAttempts) ==> c.trials == Finite(p.maxAttempts.value))
              && (Truthy(p.timeLimit) ==> c.timerDuration == p.timeLimit)
              && (TruthyString(p.difficulty) ==> c.difficulty == p.difficulty)
              && (Truthy(p.hintsAvailable) ==> c.extra.hintsAvailable == p.hintsAvailable.value)
              && c.extra.puzzleText == p.puzzle.value && c.extra.puzzleHints == p.hints.value
              && c.extra.hintsUsed == 0
              && c.extra.puzzleType == (if TruthyString(p.puzzleType) then p.puzzleType.value else "mathematical")
  {
  }

  /** `generateTarget(config)`: a fresh draw for classic, the preset target otherwise. */
  function ModeGenerateTarget(mode: ModeId, config: GameConfig, r: real): Option<int>
    requires 0.0 <= r < 1.0
  {
    if mode == Classic then Some(GameLogic.GenerateTarget(config.max, r)) else config.targetNumber
  }

  /** A classic target lies in [1, max]; a daily configuration's target is exactly the preset one. */
  lemma GenerateTargetCases(config: GameConfig, input: Option<DailyInput>, r: real)
    requires 0.0 <= r < 1.0
    ensures config.max >= 1 ==> 1 <= ModeGenerateTarget(Classic, config, r).value <= config.max
    ensures DailyConfig(input).Some? ==>
              ModeGenerateTarget(Daily, DailyConfig(input).value, r) == input.value.targetNumber
              && 1 <= input.value.targetNumber.value <= DailyConfig(input).value.max
  {
  }

  /** Why `validateGuess` refuses a guess. */
  datatype Rejection =
    | OutOfRange(lo: int, hi: int)
    | AlreadyGuessed(guess: int)
    | SameDirectionTwice
    | OnlyMultiplesOf5

  datatype Validation = Accepted(guess: int) | Rejected(reason: Rejection)

  /** The smallest guess a mode allows: 0 in puzzle mode, 1 elsewhere. */
  function LowestGuess(mode: ModeId): int {
    if mode == Puzzle then 0 else 1
  }

  /**
   * `validateGuess(guess, target, config, gameState)` on the parsed guess
   * (`None` for NaN): range, then duplicates, then the two daily rules.
   */
  function ValidateGuess(mode: ModeId, guess: Option<int>, target: int, config: GameConfig, history: seq<int>): Validation {
    var lo := LowestGuess(mode);
    if guess.None? || guess.value < lo || guess.value > config.max then Rejected(OutOfRange(lo, config.max))
    else
      var g := guess.value;
      if g in history then Rejected(AlreadyGuessed(g))
      else if mode == Daily && config.specialRule == Some("no_consecutive_direction")
              && |history| > 0 && (history[|history| - 1] > target) == (g > target) then
        Rejected(SameDirectionTwice)
      else if mode == Daily && config.specialRule == Some("only_multiples_of_5") && JsRem(g, 5) != 0 then
        Rejected(OnlyMultiplesOf5)
      else Accepted(g)
  }

  /**
   * An accepted guess is the parsed value, in range and new to the history.
   * Outside the two daily rules, that is also enough to be accepted.
   */
  lemma ValidateGuessAccepts(mode: ModeId, guess: Option<int>, target: int, config: GameConfig, history: seq<int>)
    ensures ValidateGuess(mode, guess, target, config, history).Accepted? ==>
              guess == Some(ValidateGuess(mode, guess, target, config, history).guess)
              && LowestGuess(mode) <= guess.value <= config.max && guess.value !in history
    ensures mode != Daily || config.specialRule !in {Some("no_consecutive_direction"), Some("only_multiples_of_5")} ==>
              (ValidateGuess(mode, guess, target, config, history).Accepted? <==>
                 guess.Some? && LowestGuess(mode) <= guess.value <= config.max && guess.value !in history)
  {
  }

  /** Dividing by 5 leaves no JavaScript remainder exactly when it leaves no Dafny remainder. */
  lemma JsRemFive(g: int)
    ensures JsRem(g, 5) == 0 <==> g % 5 == 0
  {
    if g < 0 {
      var q := (-g) / 5;
      if (-g) % 5 == 0 {
        assert g == (-q) * 5;
      } else if g % 5 == 0 {
        var p := g / 5;
        assert -g == (-p) * 5;
      }
    }
  }

  /**
   * The daily rules: `only_multiples_of_5` admits a guess only when it is a
   * multiple of 5, and `no_consecutive_direction` refuses a guess on the same
   * side of the target as the previous one.
   */
  lemma DailyRules(guess: Option<int>, target: int, config: GameConfig, history: seq<int>)
    ensures config.specialRule == Some("only_multiples_of_5") ==>
              (ValidateGuess(Daily, guess, target, config, history).Accepted? <==>
                 guess.Some? && 1 <= guess.value <= config.max && guess.value !in history && guess.value % 5 == 0)
    ensures config.specialRule == Some("no_consecutive_direction") ==>
              (ValidateGuess(Daily, guess, target, config, history).Accepted? <==>
                 guess.Some? && 1 <= guess.value <= config.max && guess.value !in history
                 && (|history| == 0 || (history[|history| - 1] > target) != (guess.value > target)))
  {
    if guess.Some? {
      JsRemFive(guess.value);
    }
  }

  /**
   * Under `no_consecutive_direction` the target itself counts as "not
   * higher", so right after a guess below the target, guessing the target
   * is refused as a second guess in the same direction; right after a guess
   * above it, the target is accepted.
   */
  lemma DailyTargetAfterLowGuess(target: int, config: GameConfig, history: seq<int>)
    requires config.specialRule == Some("no_consecutive_direction")
    requires 1 <= target <= config.max && target !in history
    requires history != []
    ensures history[|history| - 1] < target ==>
              ValidateGuess(Daily, Some(target), target, config, history) == Rejected(SameDirectionTwice)
    ensures history[|history| - 1] > target ==>
              ValidateGuess(Daily, Some(target), target, config, history) == Accepted(target)
  {
  }

  /** What a mode's `handleGuess` shows; the emoji decoration of the texts is not modelled. */
  datatype Hint =
    | Solved(answer: int)
    | Failed(answer: int)
    | Directed(text: string)
    | SpeedFound(answer: int, guessCount: int)
    | SpeedDirected(text: string, guessCount: int)
    | NotQuite(attemptsLeft: Trials)

  /** The part of the game state `handleGuess` reads. */
  datatype GameState = GameState(trialsLeft: Trials, guessHistory: seq<int>)

  /** The record `handleGuess` returns. */
  datatype Outcome = Outcome(
    status: Status,
    trialsLeft: Trials,
    guessHistory: seq<int>,
    hint: Hint,
    proximity: Option<Proximity>)

  /** `trialsLeft - 1`, where `Infinity - 1` is `Infinity`. */
  function Decrement(t: Trials): Trials {
    match t
    case Finite(n) => Finite(n - 1)
    case Unbounded => Unbounded
  }

  /** The finer bands of speed mode with the proximity bonus: 3, 10, 25 and 50. */
  function SpeedBonusHint(guess: int, target: int): HintData {
    var diff := Abs(guess - target);
    var isHigher := guess < target;
    if diff <= 3 then HintData(if isHigher then "SO CLOSE! Slightly higher" else "SO CLOSE! Slightly lower", Burning)
    else if diff <= 10 then HintData(if isHigher then "Getting warm... higher" else "Getting warm... lower", VeryClose)
    else if diff <= 25 then HintData(if isHigher then "Go higher" else "Go lower", Close)
    else if diff <= 50 then HintData(if isHigher then "Much higher" else "Much lower", Medium)
    else HintData(if isHigher then "Way too low!" else "Way too high!", Far)
  }

  /** The contextual puzzle hint, which names the remaining attempts when the guess is far. */
  function PuzzleHint(guess: int, target: int, newTrials: Trials): (Hint, Proximity) {
    var diff := Abs(guess - target);
    var isHigher := guess < target;
    if diff <= 3 then (Directed(if isHigher then "Very close! Try slightly higher" else "Very close! Try slightly lower"), VeryClose)
    else if diff <= 10 then (Directed(if isHigher then "Getting warmer... Go higher" else "Getting warmer... Go lower"), Close)
    else (NotQuite(newTrials), Far)
  }

  /** `handleGuess` of speed mode: unlimited attempts, so it never loses. */
  function SpeedHandleGuess(guess: int, target: int, config: GameConfig, state: GameState): Outcome {
    var newHistory := state.guessHistory + [guess];
    var count := |newHistory|;
    if guess == target then Outcome(Won, Unbounded, newHistory, SpeedFound(target, count), None)
    else
      var h := if config.extra.SpeedExtra? && config.extra.useProximityBonus then SpeedBonusHint(guess, target)
               else GetHint(guess, target);
      Outcome(Playing, Unbounded, newHistory, SpeedDirected(h.text, count), Some(h.proximity))
  }

  /** `handleGuess` of the three modes with a trial budget. */
  function BoundedHandleGuess(mode: ModeId, guess: int, target: int, config: GameConfig, state: GameState): Outcome
    requires mode != Speed
  {
    var newTrials := Decrement(state.trialsLeft);
    var newHistory := state.guessHistory + [guess];
    if guess == target then Outcome(Won, newTrials, newHistory, Solved(target), None)
    else if newTrials == Finite(0) then Outcome(Lost, Finite(0), newHistory, Failed(target), None)
    else if mode == Puzzle then
      var (hint, proximity) := PuzzleHint(guess, target, newTrials);
      Outcome(Playing, newTrials, newHistory, hint, Some(proximity))
    else
      var h := GetHint(guess, target);
      var text := if mode == Daily && config.specialRule == Some("reverse_hints") then
                    (if guess < target then "Go lower" else "Go higher")
                  else h.text;
      Outcome(Playing, newTrials, newHistory, Directed(text), Some(h.proximity))
  }

  /** `handleGuess(guess, target, config, gameState)` of a mode, for an accepted guess. */
  function HandleGuess(mode: ModeId, guess: int, target: int, config: GameConfig, state: GameState): Outcome {
    if mode == Speed then SpeedHandleGuess(guess, target, config, state)
    else BoundedHandleGuess(mode, guess, target, config, state)
  }

  /**
   * In classic, daily and puzzle mode the guess is appended and one trial is
   * spent; a match wins even on the last trial, a miss that spends the last
   * trial loses with the count forced to 0, and anything else keeps playing.
   */
  lemma BoundedTransition(mode: ModeId, guess: int, target: int, config: GameConfig, state: GameState)
    requires mode != Speed
    ensures HandleGuess(mode, guess, target, config, state).guessHistory == state.guessHistory + [guess]
    ensures HandleGuess(mode, guess, target, config, state).status == Won <==> guess == target
    ensures HandleGuess(mode, guess, target, config, state).status == Lost <==>
              guess != target && Decrement(state.trialsLeft) == Finite(0)
    ensures HandleGuess(mode, guess, target, config, state).status == Lost ==>
              HandleGuess(mode, guess, target, config, state).trialsLeft == Finite(0)
    ensures HandleGuess(mode, guess, target, config, state).trialsLeft == Decrement(state.trialsLeft)
    ensures HandleGuess(mode, guess, target, config, state).status == Playing <==>
              guess != target && Decrement(state.trialsLeft) != Finite(0)
  {
  }

  /**
   * Speed mode appends the guess, never loses and keeps an unbounded budget;
   * with the proximity bonus its bands are 3, 10, 25 and 50.
   */
  lemma SpeedTransition(guess: int, target: int, config: GameConfig, state: GameState)
    ensures HandleGuess(Speed, guess, target, config, state).status != Lost
    ensures HandleGuess(Speed, guess, target, config, state).trialsLeft == Unbounded
    ensures HandleGuess(Speed, guess, target, config, state).guessHistory == state.guessHistory + [guess]
    ensures HandleGuess(Speed, guess, target, config, state).status == Won <==> guess == target
    ensures guess != target && config.extra.SpeedExtra? && config.extra.useProximityBonus ==>
              var p := HandleGuess(Speed, guess, target, config, state).proximity.value;
              && var d := Abs(guess - target);
              && (p == Burning <==> d <= 3)
              && (p == VeryClose <==> 3 < d <= 10)
              && (p == Close <==> 10 < d <= 25)
              && (p == Medium <==> 25 < d <= 50)
              && (p == Far <==> 50 < d)
    ensures guess != target && !(config.extra.SpeedExtra? && config.extra.useProximityBonus) ==>
              HandleGuess(Speed, guess, target, config, state).proximity == Some(GetHint(guess, target).proximity)
  {
  }

  /**
   * The daily `reverse_hints` rule only turns the direction round: the text
   * says lower exactly when `getHint` would say higher, and the band is the
   * one `getHint` gives.
   */
  lemma ReverseHints(guess: int, target: int, config: GameConfig, state: GameState)
    requires config.specialRule == Some("reverse_hints")
    requires HandleGuess(Daily, guess, target, config, state).status == Playing
    ensures HandleGuess(Daily, guess, target, config, state).proximity == Some(GetHint(guess, target).proximity)
    ensures HandleGuess(Daily, guess, target, config, state).hint.Directed?
    ensures HandleGuess(Daily, guess, target, config, state).hint.text in LOWER_TEXTS <==>
              GetHint(guess, target).text in HIGHER_TEXTS
    ensures HandleGuess(Daily, guess, target, config, state).hint.text in HIGHER_TEXTS <==>
              GetHint(guess, target).text in LOWER_TEXTS
  {
    GetHintDirection(guess, target);
  }

  /** Puzzle hints use the bands 3 and 10 and name the attempts left beyond that. */
  lemma PuzzleHints(guess: int, target: int, config: GameConfig, state: GameState)
    requires HandleGuess(Puzzle, guess, target, config, state).status == Playing
    ensures var o := HandleGuess(Puzzle, guess, target, config, state);
            && var d := Abs(guess - target);
            && (o.proximity == Some(VeryClose) <==> d <= 3)
            && (o.proximity == Some(Close) <==> 3 < d <= 10)
            && (o.proximity == Some(Far) <==> 10 < d)
            && (10 < d ==> o.hint == NotQuite(Decrement(state.trialsLeft)))
  {
  }

  /** The history has no repeats and stays within the mode's range. */
  predicate HistoryValid(mode: ModeId, config: GameConfig, history: seq<int>) {
    && (forall i, j :: 0 <= i < j < |history| ==> history[i] != history[j])
    && (forall i :: 0 <= i < |history| ==> LowestGuess(mode) <= history[i] <= config.max)
  }

  /**
   * Validating before handling keeps the history valid, and in a bounded
   * mode the trials left plus the guesses made stay equal to the budget, so
   * a game that is still playing has a trial left and a lost one has none.
   */
  lemma AcceptedGuessPreserves(mode: ModeId, input: Option<int>, target: int, config: GameConfig, state: GameState, budget: int)
    requires HistoryValid(mode, config, state.guessHistory)
    requires ValidateGuess(mode, input, target, config, state.guessHistory).Accepted?
    ensures var o := HandleGuess(mode, ValidateGuess(mode, input, target, config, state.guessHistory).guess, target, config, state);
            HistoryValid(mode, config, o.guessHistory)
    ensures mode != Speed && state.trialsLeft.Finite? && state.trialsLeft.n >= 1
            && state.trialsLeft.n + |state.guessHistory| == budget ==>
            var o := HandleGuess(mode, ValidateGuess(mode, input, target, config, state.guessHistory).guess, target, config, state);
            && o.trialsLeft.Finite? && o.trialsLeft.n >= 0
            && o.trialsLeft.n + |o.guessHistory| == budget
            && (o.status == Playing ==> o.trialsLeft.n >= 1)
            && (o.status == Lost ==> o.trialsLeft.n == 0)
  {
    var g := ValidateGuess(mode, input, target, config, state.guessHistory).guess;
    ValidateGuessAccepts(mode, input, target, config, state.guessHistory);
    var h := state.guessHistory + [g];
    assert h[|h| - 1] == g;
    assert forall i :: 0 <= i < |state.guessHistory| ==> h[i] == state.guessHistory[i];
  }
}
