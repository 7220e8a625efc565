/**
 * The classic game screen: one session's state, the guess handler that
 * steps it, and the win and loss folds into the stored statistics, after
 * which a win checks achievements.
 */
module GameScreen {
  import opened Wrappers
  import opened JsOps
  import opened Difficulties
  import opened GameLogic
  import opened Storage
  import opened AchievementSystem
  import GameModes
  import Achievements

  /** The text field when the guess button is pressed: empty, or what `parseInt` makes of it (`None` for NaN). */
  datatype GuessInput = Blank | Typed(parsed: Option<int>)

  /** What the screen's hint line says; the interpolated numbers are kept, the wording is not. */
  datatype ScreenHint =
    | Prompt(max: int)
    | InvalidInput(max: int)
    | AlreadyGuessed(guess: int)
    | Correct(answer: int)
    | GameOver(answer: int)
    | Directed(text: string)

  /** The two input checks of the handler, in order: range (NaN included), then repeats. */
  datatype Check = Invalid | Repeated(guess: int) | Fresh(guess: int)

  function CheckGuess(parsed: Option<int>, max: int, history: seq<int>): (c: Check)
    ensures c.Fresh? <==> parsed.Some? && 1 <= parsed.value <= max && parsed.value !in history
    ensures c.Fresh? ==> c.guess == parsed.value
    ensures c.Repeated? <==> parsed.Some? && 1 <= parsed.value <= max && parsed.value in history
  {
    if parsed.None? || parsed.value < 1 || parsed.value > max then Invalid
    else if parsed.value in history then Repeated(parsed.value)
    else Fresh(parsed.value)
  }

  /**
   * The statistics `handleWin(attemptsUsed)` saves, from those it read;
   * `trialsLeftBefore` is the count before the winning guess. `None` when
   * the difficulty has no bucket, where reading `.games` of it raises and
   * nothing is saved.
   */
  function WinStats(stats: UserStats, difficulty: string, attemptsUsed: int, trialsLeftBefore: int): Option<UserStats> {
    if difficulty !in stats.byDifficulty then None
    else
      var b := stats.byDifficulty[difficulty];
      Some(stats.(
        totalGames := stats.totalGames + 1,
        totalWins := stats.totalWins + 1,
        currentWinStreak := stats.currentWinStreak + 1,
        longestWinStreak := Max(stats.longestWinStreak, stats.currentWinStreak + 1),
        perfectGames := if IsPerfectGame(attemptsUsed) then stats.perfectGames + 1 else stats.perfectGames,
        comebacks := if IsComeback(trialsLeftBefore) then stats.comebacks + 1 else stats.comebacks,
        byDifficulty := stats.byDifficulty[difficulty := DifficultyBucket(
          b.games + 1, b.wins + 1, b.totalAttempts + attemptsUsed,
          Some(TruthyMin(b.bestAttempts, attemptsUsed)))]))
  }

  /** The statistics `handleLoss()` saves; `None` when the difficulty has no bucket. */
  function LossStats(stats: UserStats, difficulty: string): Option<UserStats> {
    if difficulty !in stats.byDifficulty then None
    else
      var b := stats.byDifficulty[difficulty];
      Some(stats.(
        totalGames := stats.totalGames + 1,
        totalLosses := stats.totalLosses + 1,
        currentWinStreak := 0,
        byDifficulty := stats.byDifficulty[difficulty := b.(games := b.games + 1)]))
  }

  /**
   * A win counts one more game, win and streak step, keeps the longest
   * streak as the maximum, counts a perfect game exactly for one attempt and a
   * comeback exactly when one trial was left before the guess, and updates
   * only the difficulty's bucket, with the fewest attempts as best.
   */
  lemma WinStatsCounters(stats: UserStats, difficulty: string, attemptsUsed: int, trialsLeftBefore: int)
    ensures WinStats(stats, difficulty, attemptsUsed, trialsLeftBefore).Some? <==> difficulty in stats.byDifficulty
    ensures WinStats(stats, difficulty, attemptsUsed, trialsLeftBefore).Some? ==>
              var s, b := WinStats(stats, difficulty, attemptsUsed, trialsLeftBefore).value, stats.byDifficulty[difficulty];
              && s.totalGames == stats.totalGames + 1 && s.totalWins == stats.totalWins + 1
              && s.totalLosses == stats.totalLosses
              && s.currentWinStreak == stats.currentWinStreak + 1
              && s.longestWinStreak == Max(stats.longestWinStreak, stats.currentWinStreak + 1)
              && (s.perfectGames == stats.perfectGames + 1 <==> attemptsUsed == 1)
              && (s.perfectGames == stats.perfectGames <==> attemptsUsed != 1)
              && (s.comebacks == stats.comebacks + 1 <==> trialsLeftBefore == 1)
              && (s.comebacks == stats.comebacks <==> trialsLeftBefore != 1)
              && s.byDifficulty[difficulty].games == b.games + 1
              && s.byDifficulty[difficulty].wins == b.wins + 1
              && s.byDifficulty[difficulty].totalAttempts == b.totalAttempts + attemptsUsed
              && s.byDifficulty[difficulty].bestAttempts ==
                   Some(if Truthy(b.bestAttempts) then Min(b.bestAttempts.value, attemptsUsed) else attemptsUsed)
              && s.byDifficulty.Keys == stats.byDifficulty.Keys
              && (forall k :: k in stats.byDifficulty && k != difficulty ==> s.byDifficulty[k] == stats.byDifficulty[k])
  {
  }

  /** A loss counts one more game and loss, ends the streak and touches only the bucket's game count. */
  lemma LossStatsCounters(stats: UserStats, difficulty: string)
    ensures LossStats(stats, difficulty).Some? <==> difficulty in stats.byDifficulty
    ensures LossStats(stats, difficulty).Some? ==>
              var s, b := LossStats(stats, difficulty).value, stats.byDifficulty[difficulty];
              && s.totalGames == stats.totalGames + 1 && s.totalLosses == stats.totalLosses + 1
              && s.totalWins == stats.totalWins && s.currentWinStreak == 0
              && s.longestWinStreak == stats.longestWinStreak
              && s.perfectGames == stats.perfectGames && s.comebacks == stats.comebacks
              && s.byDifficulty[difficulty] == b.(games := b.games + 1)
              && s.byDifficulty.Keys == stats.byDifficulty.Keys
              && (forall k :: k in stats.byDifficulty && k != difficulty ==> s.byDifficulty[k] == stats.byDifficulty[k])
  {
  }

  /** Both folds keep every game a win or a loss, the longest streak above the current one, and wins within games. */
  lemma StatsFoldsPreserveInvariant(stats: UserStats, difficulty: string, attemptsUsed: int, trialsLeftBefore: int)
    requires StatsInvariant(stats)
    ensures WinStats(stats, difficulty, attemptsUsed, trialsLeftBefore).Some? ==>
              StatsInvariant(WinStats(stats, difficulty, attemptsUsed, trialsLeftBefore).value)
    ensures LossStats(stats, difficulty).Some? ==> StatsInvariant(LossStats(stats, difficulty).value)
  {
    WinStatsCounters(stats, difficulty, attemptsUsed, trialsLeftBefore);
    LossStatsCounters(stats, difficulty);
  }

  /** The first game on a fresh store saves without raising, for each of the three difficulties. */
  lemma DefaultsHaveBuckets(difficulty: string, attemptsUsed: int, trialsLeftBefore: int)
    requires Lookup(difficulty).Some?
    ensures WinStats(GetStats(EMPTY_STORE), difficulty, attemptsUsed, trialsLeftBefore).Some?
    ensures LossStats(GetStats(EMPTY_STORE), difficulty).Some?
  {
    EmptyStoreDefaults();
    LookupKeys(difficulty);
  }

  /** The store after a finished game: the stats saved, then achievements checked on them after a win. */
  function StoreAfterWin(store: Store, stats: Option<UserStats>, now: string): Store {
    if stats.None? then store else StoreAfterCheck(SaveStats(store, stats.value), stats.value, now)
  }

  function StoreAfterLoss(store: Store, stats: Option<UserStats>): Store {
    if stats.None? then store else SaveStats(store, stats.value)
  }

  /**
   * The list a win alerts: what `checkAchievements` unlocks on the saved
   * statistics, or the earlier list when the fold raised before the check.
   */
  function UnlockedAfterWin(previous: seq<StoredAchievement>, store: Store, stats: Option<UserStats>, now: string): seq<StoredAchievement> {
    if stats.None? then previous
    else NewlyUnlocked(Achievements.ACHIEVEMENTS, GetAchievements(SaveStats(store, stats.value)), stats.value, now)
  }

  /**
   * Trials left and guesses made add up to the row's budget, guesses are
   * distinct and in range, a game still playing has trials left and has not
   * hit the target, a won game ended on the target and a lost one used every
   * trial without hitting it.
   */
  ghost predicate SessionInvariant(row: DifficultyRow, target: int, trialsLeft: int, history: seq<int>, status: GameModes.Status) {
    && 0 <= trialsLeft && |history| + trialsLeft == row.trials
    && (forall i, j :: 0 <= i < j < |history| ==> history[i] != history[j])
    && (forall i :: 0 <= i < |history| ==> 1 <= history[i] <= row.max)
    && (status == GameModes.Playing ==> trialsLeft > 0 && target !in history)
    && (status == GameModes.Won ==> |history| > 0 && history[|history| - 1] == target)
    && (status == GameModes.Lost ==> trialsLeft == 0 && target !in history)
  }

  /** The status an accepted guess leads to: a hit wins, a miss on the last trial loses. */
  function StatusAfter(g: int, target: int, trialsAfter: int): GameModes.Status {
    if g == target then GameModes.Won else if trialsAfter == 0 then GameModes.Lost else GameModes.Playing
  }

  /** Accepting a new in-range guess in a game still playing keeps the invariant. */
  lemma AcceptKeepsInvariant(row: DifficultyRow, target: int, trialsLeft: int, history: seq<int>, g: int)
    requires SessionInvariant(row, target, trialsLeft, history, GameModes.Playing)
    requires 1 <= g <= row.max && g !in history
    ensures SessionInvariant(row, target, trialsLeft - 1, history + [g], StatusAfter(g, target, trialsLeft - 1))
  {
    var h := history + [g];
    assert forall i :: 0 <= i < |history| ==> h[i] == history[i];
    assert h[|h| - 1] == g;
  }

  /** One classic game screen: its difficulty row, the session state and the store it reads and writes. */
  class Session {
    const difficulty: string
    const row: DifficultyRow
    var targetNumber: int
    var trialsLeft: int
    var hint: ScreenHint
    var status: GameModes.Status
    var guessHistory: seq<int>
    var proximity: Option<Proximity>
    var store: Store
    /** The achievements the last win unlocked, for the alert. */
    var lastUnlocked: seq<StoredAchievement>

    ghost predicate Valid()
      reads this
    {
      Lookup(difficulty) == Some(row) && SessionInvariant(row, targetNumber, trialsLeft, guessHistory, status)
    }

    /**
     * The screen for `difficulty` after its first effect ran: the target is
     * the one provided when truthy, else a draw in [1, max]. The source
     * reads `config.trials` before checking the difficulty, so an unknown
     * one raises instead of showing its error view.
     */
    constructor (difficulty: string, providedTarget: Option<int>, r: real, store: Store)
      requires Lookup(difficulty).Some?
      requires 0.0 <= r < 1.0
      ensures Valid()
      ensures this.difficulty == difficulty && row == Lookup(difficulty).value
      ensures targetNumber == if Truthy(providedTarget) then providedTarget.value else GenerateTarget(row.max, r)
      ensures trialsLeft == row.trials && guessHistory == [] && status == GameModes.Playing
      ensures hint == Prompt(row.max) && proximity == None && this.store == store && lastUnlocked == []
    {
      this.difficulty := difficulty;
      row := Lookup(difficulty).value;
      targetNumber := if Truthy(providedTarget) then providedTarget.value else GenerateTarget(Lookup(difficulty).value.max, r);
      trialsLeft := Lookup(difficulty).value.trials;
      hint := Prompt(Lookup(difficulty).value.max);
      status := GameModes.Playing;
      guessHistory := [];
      proximity := None;
      this.store := store;
      lastUnlocked := [];
      RowsOrdered(difficulty, difficulty);
    }

    /**
     * `handleGuess()` with the text field's content, the clock reading as
     * `now`. A blank field or a finished game changes nothing; a rejected
     * guess changes only the hint; an accepted one spends a trial, is
     * appended, and wins, loses or hints.
     */
    method HandleGuess(input: GuessInput, now: string)
      requires Valid()
      modifies this`trialsLeft, this`guessHistory, this`status, this`hint, this`proximity, this`store, this`lastUnlocked
      ensures Valid()
      ensures input.Blank? || old(status) != GameModes.Playing ==> unchanged(this)
      ensures input.Typed? && old(status) == GameModes.Playing && !CheckGuess(input.parsed, row.max, old(guessHistory)).Fresh? ==>
                && hint == (if CheckGuess(input.parsed, row.max, old(guessHistory)).Invalid? then InvalidInput(row.max)
                            else AlreadyGuessed(input.parsed.value))
                && trialsLeft == old(trialsLeft) && guessHistory == old(guessHistory) && status == old(status)
                && proximity == old(proximity) && store == old(store) && lastUnlocked == old(lastUnlocked)
      ensures input.Typed? && old(status) == GameModes.Playing && CheckGuess(input.parsed, row.max, old(guessHistory)).Fresh? ==>
                var g := input.parsed.value;
                && trialsLeft == old(trialsLeft) - 1
                && guessHistory == old(guessHistory) + [g]
                && (status == GameModes.Won <==> g == targetNumber)
                && (status == GameModes.Lost <==> g != targetNumber && trialsLeft == 0)
                && (g == targetNumber ==>
                      && hint == Correct(targetNumber)
                      && store == StoreAfterWin(old(store), WinStats(GetStats(old(store)), difficulty, row.trials - trialsLeft, old(trialsLeft)), now)
                      && lastUnlocked == UnlockedAfterWin(old(lastUnlocked), old(store),
                           WinStats(GetStats(old(store)), difficulty, row.trials - trialsLeft, old(trialsLeft)), now))
                && (status != GameModes.Won ==> lastUnlocked == old(lastUnlocked))
                && (status != GameModes.Playing ==> proximity == old(proximity))
                && (status == GameModes.Lost ==>
                      hint == GameOver(targetNumber) && store == StoreAfterLoss(old(store), LossStats(GetStats(old(store)), difficulty)))
                && (status == GameModes.Playing ==>
                      hint == Directed(GetHint(g, targetNumber).text) && proximity == Some(GetHint(g, targetNumber).proximity)
                      && store == old(store))
    {
      if input.Blank? || status != GameModes.Playing {
        return;
      }
      var numGuess := input.parsed;
      if numGuess.None? || numGuess.value < 1 || numGuess.value > row.max {
        hint := InvalidInput(row.max);
        return;
      }
      var g := numGuess.value;
      if g in guessHistory {
        hint := AlreadyGuessed(g);
        return;
      }
      Accept(g, now);
    }

    /** The accepted-guess part of `handleGuess()`: spend a trial, record the guess, then win, lose or hint. */
    method Accept(g: int, now: string)
      requires Valid() && status == GameModes.Playing
      requires 1 <= g <= row.max && g !in guessHistory
      modifies this`trialsLeft, this`guessHistory, this`status, this`hint, this`proximity, this`store, this`lastUnlocked
      ensures Valid()
      ensures trialsLeft == old(trialsLeft) - 1
      ensures guessHistory == old(guessHistory) + [g]
      ensures status == GameModes.Won <==> g == targetNumber
      ensures status == GameModes.Lost <==> g != targetNumber && trialsLeft == 0
      ensures g == targetNumber ==>
                && hint == Correct(targetNumber)
                && store == StoreAfterWin(old(store), WinStats(GetStats(old(store)), difficulty, row.trials - trialsLeft, old(trialsLeft)), now)
                && lastUnlocked == UnlockedAfterWin(old(lastUnlocked), old(store),
                     WinStats(GetStats(old(store)), difficulty, row.trials - trialsLeft, old(trialsLeft)), now)
      ensures status != GameModes.Won ==> lastUnlocked == old(lastUnlocked)
      ensures status != GameModes.Playing ==> proximity == old(proximity)
      ensures status == GameModes.Lost ==>
                hint == GameOver(targetNumber) && store == StoreAfterLoss(old(store), LossStats(GetStats(old(store)), difficulty))
      ensures status == GameModes.Playing ==>
                hint == Directed(GetHint(g, targetNumber).text) && proximity == Some(GetHint(g, targetNumber).proximity)
                && store == old(store)
    {
      var trialsBefore := trialsLeft;
      var newTrials := trialsLeft - 1;
      AcceptKeepsInvariant(row, targetNumber, trialsLeft, guessHistory, g);
      trialsLeft := newTrials;
      guessHistory := guessHistory + [g];
      if g == targetNumber {
        HandleWin(row.trials - newTrials, trialsBefore, now);
      } else if newTrials == 0 {
        HandleLoss();
      } else {
        var hintData := GetHint(g, targetNumber);
        hint := Directed(hintData.text);
        proximity := Some(hintData.proximity);
      }
    }

    /** `handleWin(attemptsUsed)`: the status and hint, then the stats fold and the achievement check. */
    method HandleWin(attemptsUsed: int, trialsLeftBefore: int, now: string)
      modifies this`status, this`hint, this`store, this`lastUnlocked
      ensures status == GameModes.Won && hint == Correct(targetNumber)
      ensures store == StoreAfterWin(old(store), WinStats(GetStats(old(store)), difficulty, attemptsUsed, trialsLeftBefore), now)
      ensures lastUnlocked == UnlockedAfterWin(old(lastUnlocked), old(store),
                WinStats(GetStats(old(store)), difficulty, attemptsUsed, trialsLeftBefore), now)
    {
      status := GameModes.Won;
      hint := Correct(targetNumber);
      var updated := WinStats(GetStats(store), difficulty, attemptsUsed, trialsLeftBefore);
      if updated.Some? {
        store := SaveStats(store, updated.value);
        var newly, store' := CheckAchievements(updated.value, store, now);
        store := store';
        lastUnlocked := newly;
      }
    }

    /** `handleLoss()`: the status and hint, then the stats fold. */
    method HandleLoss()
      modifies this`status, this`hint, this`store
      ensures status == GameModes.Lost && hint == GameOver(targetNumber)
      ensures store == StoreAfterLoss(old(store), LossStats(GetStats(old(store)), difficulty))
    {
      status := GameModes.Lost;
      hint := GameOver(targetNumber);
      var updated := LossStats(GetStats(store), difficulty);
      if updated.Some? {
        store := SaveStats(store, updated.value);
      }
    }
  }

  /**
   * The attempts a win records are the guesses made, so a first-guess win
   * is perfect and a win with one trial left before it is a comeback.
   */
  lemma WinAttemptsAreGuesses(trials: int, historyBefore: seq<int>, trialsLeftBefore: int)
    requires |historyBefore| + trialsLeftBefore == trials && trialsLeftBefore > 0
    ensures trials - (trialsLeftBefore - 1) == |historyBefore| + 1
    ensures IsPerfectGame(trials - (trialsLeftBefore - 1)) <==> historyBefore == []
    ensures IsComeback(trialsLeftBefore) <==> |historyBefore| + 1 == trials
  {
  }

  /**
   * An easy game with target 27 and the guesses 10, 40, 25, 27: the hints
   * run medium, close, very close, then the fourth guess wins with 4
   * attempts used and 7 trials left before it, so on fresh statistics the
   * win is neither perfect nor a comeback and 4 becomes the best attempts.
   */
  lemma EasyScenario()
    ensures CheckGuess(Some(10), 50, []) == Fresh(10) && GetHint(10, 27).proximity == Medium
    ensures CheckGuess(Some(40), 50, [10]) == Fresh(40) && GetHint(40, 27).proximity == Close
    ensures CheckGuess(Some(25), 50, [10, 40]) == Fresh(25) && GetHint(25, 27).proximity == VeryClose
    ensures CheckGuess(Some(27), 50, [10, 40, 25]) == Fresh(27)
    ensures CheckGuess(Some(40), 50, [10, 40, 25]) == Repeated(40)
    ensures var s := WinStats(DEFAULT_STATS, "easy", 10 - (7 - 1), 7);
            && s.Some? && s.value.totalWins == 1 && s.value.perfectGames == 0 && s.value.comebacks == 0
            && s.value.byDifficulty["easy"].bestAttempts == Some(4)
  {
  }

  /** A hard game won on its fifth and last trial is a comeback: the fold counts it, and not as perfect. */
  lemma HardComebackScenario()
    ensures var s := WinStats(DEFAULT_STATS, "hard", 5 - (1 - 1), 1);
            && s.Some? && s.value.comebacks == 1 && s.value.perfectGames == 0
            && s.value.byDifficulty["hard"].totalAttempts == 5
  {
  }

  /**
   * The first win on a fresh store, an easy game won with 4 attempts and 7
   * trials left before the winning guess, alerts "first_win".
   */
  lemma FirstWinAlerts(now: string)
    ensures HasId(UnlockedAfterWin([], EMPTY_STORE, WinStats(GetStats(EMPTY_STORE), "easy", 4, 7), now), "first_win")
  {
    EmptyStoreDefaults();
    var w := WinStats(DEFAULT_STATS, "easy", 4, 7);
    assert w.Some? && w.value.totalWins == 1;
    ReadAfterWrite(EMPTY_STORE, w.value, []);
    assert Achievements.ACHIEVEMENTS[0] == Achievements.FIRST_WIN;
    assert Unlockable(Achievements.FIRST_WIN, [], w.value);
    NewlyUnlockedExactly(Achievements.ACHIEVEMENTS, [], w.value, now, "first_win");
  }
}
