# Numerix rules and progress tracking in Dafny

Numerix is a number-guessing game: the player picks a difficulty or a mode
(classic, daily, speed, puzzle) and guesses a hidden number. After each guess
the game says whether to go higher or lower and how close the guess was. A
game ends when the number is found or the trials run out. After each game it
folds the result into stored statistics and unlocks achievements from a table
of 25 threshold rules.

This project models the part of Numerix that decides things:

- the difficulty table and the four-mode registry (`getConfig`,
  `generateTarget`, `validateGuess`, `handleGuess` for each mode, and
  `getGameMode`);
- the hint and scoring helpers;
- the daily number generator, a 32-bit string hash over the `YYYY-MM-DD` date;
- the speed and puzzle challenge generators and their statistics folds;
- the achievement table and the unlock loop;
- the classic game screen's guess handler, with its win and loss folds into
  the stored statistics.

One module per source file:

| module | file |
|---|---|
| `Wrappers`, `JsOps` | helpers: `Option`, JavaScript's 32-bit conversion, truncating `%`, truthiness, `Math.floor(Math.random() * n)`, `includes`, the `split('T')[0]` date prefix |
| `Difficulties` | `constants/difficulties.js` |
| `GameLogic` | `utils/gameLogic.js`, and the identical copy of `getHint` in `constants/gameModes.js` |
| `GameModes` | `constants/gameModes.js` |
| `DailyChallenge` | `utils/dailyChallengeGenerator.js` |
| `Storage` | the records and defaults of `utils/storage.js` as a value with one optional entry per key |
| `Achievements` | `constants/achievements.js` |
| `AchievementSystem` | `utils/achievementSystem.js` |
| `SpeedChallenge` | `utils/speedChallengeGenerator.js` |
| `PuzzleChallenge` | `utils/puzzleChallengeGenerator.js` |
| `GameScreen` | the guess handler and stats folds of `screens/GameScreen.js` |

The model takes the source's own form:

- The registry, hints, generators, tables and the speed fold are pure, so they
  are functions over datatypes.
- `generateDailyNumber` is a loop. It becomes a method with a `for` loop,
  proved equal to a recursive hash function.
- `checkAchievements` pushes into a list in a loop. It becomes a method with a
  loop, proved equal to a filter function over the table.
- The puzzle `updateStats` mutates one statistics object in place. It becomes
  a class `PuzzleStats` whose methods update its fields.
- The game screen steps its state variables. It becomes a class `Session`
  with those variables as fields.

JavaScript details are written out:

- `(hash << 5) - hash` and `hash & hash` wrap to signed 32 bits (`ToInt32`).
- `%` truncates toward zero (`JsRem`).
- A record field that is missing, `null` or `0` is falsy (`Truthy`), so a best
  time of 0 counts as unset where the code tests truthiness. The puzzle fold
  tests `=== null` instead, so there 0 is a real best (`NullMin`).
- `Infinity` trials in speed mode are the `Unbounded` variant.
- A parsed guess is `Option<int>`, with `None` for `NaN`.
- Each `Math.random()` draw is a parameter. The clock readings are parameters too, one per operation (see `AchievementSystem.CheckAchievements` under "## Left out").

Where a precondition appears, it is a demand the source makes too:

- The game screen is constructed only for a known difficulty. The source
  reads `DIFFICULTIES[difficulty].trials` before its own guard, so an unknown
  difficulty raises.
- `Math.random()` draws lie in [0, 1).

Where the code and the design description disagree, the model follows the
code:

- The daily number depends only on the date string and lies in 1..100. The
  daily challenge is always medium with 7 trials. No rule table or
  per-difficulty formula exists in the code.
- For target 27, guesses 10 and 40 get the bands medium and close (distances
  17 and 13), not far (`GameScreen.EasyScenario`).
- Under the daily `no_consecutive_direction` rule the code counts the target
  itself as "not higher". Right after a guess below the target, the target is
  refused as a second guess in the same direction
  (`GameModes.DailyTargetAfterLowGuess`). The model keeps this behaviour.

## Model

| member | source | states |
|---|---|---|
| JsOps.ToInt32 | utils/dailyChallengeGenerator.js:9-10 | the result is a signed 32-bit integer congruent to the input modulo 2^32 |
| JsOps.ToInt32OfInt32 | utils/dailyChallengeGenerator.js:10 | `hash & hash` leaves a value already in signed 32-bit range unchanged |
| JsOps.ToInt32Congruent | utils/dailyChallengeGenerator.js:9-10 | inputs congruent modulo 2^32 convert to the same 32-bit value |
| JsOps.Abs | utils/gameLogic.js:9 | the result is non-negative and is the input or its negation |
| JsOps.JsRem | utils/dailyChallengeGenerator.js:14 | JavaScript's `%`: its magnitude is the remainder of the magnitudes and it takes the dividend's sign |
| JsOps.JsRemNegate | utils/dailyChallengeGenerator.js:14 | negating the dividend negates the truncated remainder |
| JsOps.OrElse | constants/gameModes.js:416-420 | JavaScript's or-default: the value when truthy, otherwise the default |
| JsOps.TruthyMin | screens/GameScreen.js:106-108 | `best ? min(best, v) : v`: the minimum when the old best is truthy, otherwise the new value, and never above the new value |
| JsOps.FloorDraw | utils/gameLogic.js:4 | `Math.floor(r * n)` for r in [0, 1) lies in [0, n) |
| JsOps.DatePart | utils/dailyChallengeGenerator.js:4 | `split('T')[0]` is a prefix without 'T', followed in the input by 'T' when shorter |
| Difficulties.LookupKeys | constants/difficulties.js:2-24 | exactly the keys easy, medium and hard have a row |
| Difficulties.EasyRow | constants/difficulties.js:3-9 | easy is max 50, 10 trials, multiplier 1 |
| Difficulties.MediumRow | constants/difficulties.js:10-16 | medium is max 100, 7 trials, multiplier 2 |
| Difficulties.HardRow | constants/difficulties.js:17-23 | hard is max 200, 5 trials, multiplier 3 |
| Difficulties.RowsOrdered | constants/difficulties.js:2-24 | every row has max and trials at least 1; a larger range has strictly fewer trials and a larger multiplier |
| GameLogic.GenerateTarget | utils/gameLogic.js:3-5 | for max at least 1 the target lies in [1, max] |
| GameLogic.GetHintBands | utils/gameLogic.js:8-21 | proximity is very_close iff distance at most 5, close iff 6..15, medium iff 16..30, far iff above 30 |
| GameLogic.GetHintDirection | utils/gameLogic.js:10-20 | the text is one of the higher texts iff guess < target, and one of the lower texts otherwise |
| GameLogic.GetHintDependsOnDistance | utils/gameLogic.js:9-10 | equal distances give equal bands; equal distance and direction give the same hint |
| GameLogic.DifficultyMultiplierCases | utils/gameLogic.js:25 | the multiplier is 1 iff easy, 2 iff medium, 3 for every other name |
| GameLogic.TimeBonusMonotone | utils/gameLogic.js:27 | the time bonus is 50 below 30 s, 0 from 60 s, 25 between, and never increases with time |
| DailyChallenge.HashOf | utils/dailyChallengeGenerator.js:5-11 | the hash of every prefix is a signed 32-bit integer |
| DailyChallenge.GenerateDailyNumber | utils/dailyChallengeGenerator.js:3-15 | the loop's result equals the hash-derived number of the timestamp's date part and lies in 1..100 |
| DailyChallenge.HashStepIsPolynomial | utils/dailyChallengeGenerator.js:9-10 | the shift-subtract-mask step equals `toInt32(hash * 31 + code)` and stays a 32-bit integer |
| DailyChallenge.HashOfUnfolds | utils/dailyChallengeGenerator.js:7-11 | appending one character to the date string adds exactly one loop turn to the hash |
| DailyChallenge.HashOfSnoc | utils/dailyChallengeGenerator.js:7-11 | one more character multiplies the hash by 31, adds its code and wraps to 32 bits |
| DailyChallenge.NumberFromHashClosedForm | utils/dailyChallengeGenerator.js:14 | `abs(hash % 100) + 1` equals `abs(hash) mod 100 + 1` and lies in 1..100 |
| DailyChallenge.NumberFromHashSymmetric | utils/dailyChallengeGenerator.js:14 | hashes h and -h map to the same number |
| DailyChallenge.DailyNumberRange | utils/dailyChallengeGenerator.js:14 | every date string maps into 1..100 |
| DailyChallenge.DailyNumberDependsOnDateOnly | utils/dailyChallengeGenerator.js:4 | two timestamps with the same date part get the same number |
| DailyChallenge.HasPlayedTodayCases | utils/dailyChallengeGenerator.js:18-25 | a missing or empty last date is false; otherwise true iff the date parts of now and the last date are equal |
| DailyChallenge.HasPlayedSameDay | utils/dailyChallengeGenerator.js:21-24 | a non-empty last date with today's date part counts as played |
| DailyChallenge.TodayChallengeShape | utils/dailyChallengeGenerator.js:28-38 | today's challenge is medium, 7 trials, dated by the date part, and its target is that date's number in 1..100 |
| Storage.EmptyStoreDefaults | utils/storage.js:20-43 | an empty store reads as the default stats (which satisfy the stats invariant, with buckets easy, medium and hard), no achievements and the default daily record |
| Storage.ReadAfterWrite | utils/storage.js:69-121 | a save is read back by its getter and leaves the other keys unchanged |
| Storage.ModeStatsAccessorsMissing | utils/storage.js:45-149 | the `Storage` object has no `getSpeedStats`, `saveSpeedStats`, `getPuzzleStats` or `savePuzzleStats` method |
| Achievements.FingerprintsIndex0 | constants/achievements.js:3-39 | entries 0..4 have fingerprints that identify their positions |
| Achievements.FingerprintsIndex1 | constants/achievements.js:40-76 | entries 5..9 have fingerprints that identify their positions |
| Achievements.FingerprintsIndex2 | constants/achievements.js:77-113 | entries 10..14 have fingerprints that identify their positions |
| Achievements.FingerprintsIndex3 | constants/achievements.js:116-152 | entries 15..19 have fingerprints that identify their positions |
| Achievements.FingerprintsIndex4 | constants/achievements.js:153-192 | entries 20..24 have fingerprints that identify their positions |
| Achievements.IdsDistinct | constants/achievements.js:1-192 | no two entries share an id |
| Achievements.CategoriesDeclared | constants/achievements.js:1-203 | every entry's category is a key of the category map |
| Achievements.TableWellFormed | constants/achievements.js:1-203 | the table has 25 entries with pairwise-distinct ids, each in a category that is a key of the category map |
| Achievements.StreakThresholdsNested | constants/achievements.js:31-52 | each longer win-streak achievement implies the shorter ones (20, 10, 5, 3) |
| Achievements.GamesThresholdsNested | constants/achievements.js:11-112 | the games-played achievements are nested: 250, 100, 50, 25, 10, 5 |
| Achievements.SpecialImplications | constants/achievements.js:3-191 | grand_master implies master_hard, perfect_five perfect_game, clutch_master comeback_king, numerix_legend first_win |
| Achievements.RatioIntegerForm | constants/achievements.js:174-181 | `wins / games >= num / den` is `den * wins >= num * games` for positive games and den |
| Achievements.WinRateIntegerForm | constants/achievements.js:170-183 | win_rate_50 is `games >= 20 && 2 * wins >= games`; win_rate_75 is `games >= 30 && 4 * wins >= 3 * games` |
| Achievements.WinRateNested | constants/achievements.js:170-183 | win_rate_75 implies win_rate_50 |
| AchievementSystem.CheckAchievements | utils/achievementSystem.js:6-28 | the loop returns the table-order filter of unlockable achievements; the store is saved with the old list followed by them exactly when there are some |
| AchievementSystem.CollectUnlocked | utils/achievementSystem.js:8-20 | the loop over a table collects exactly the table-order filter of unlockable entries, each stamped with now |
| AchievementSystem.HasIdAppend | utils/achievementSystem.js:11-23 | an id is in a concatenation iff it is in one of the parts |
| AchievementSystem.NewlyUnlockedExactly | utils/achievementSystem.js:11-19 | an id is returned iff a table entry with that id is not yet stored and its condition holds; each returned record is that entry stamped with now |
| AchievementSystem.NewlyUnlockedOrder | utils/achievementSystem.js:10-20 | for a table of distinct ids the result is no longer than the table and has no repeated id |
| AchievementSystem.NothingNew | utils/achievementSystem.js:22 | when no entry is unlockable the result is empty, so nothing is saved |
| AchievementSystem.CheckTwice | utils/achievementSystem.js:11-24 | a second check with the same stats after the first one's save returns nothing |
| AchievementSystem.StoredInvariantPreserved | utils/achievementSystem.js:22-25 | a stored list of distinct table ids stays so after the new ones are appended |
| AchievementSystem.ProgressIsFourPercentEach | utils/achievementSystem.js:31-41 | total is 25, unlocked is the stored list's length, and the percentage is 4 per unlock |
| AchievementSystem.DistinctStoredCount | utils/achievementSystem.js:34 | a list of distinct ids has as many ids as entries |
| AchievementSystem.TableIdsCount | constants/achievements.js:1-192 | a table has no more ids than entries |
| AchievementSystem.StoredWithinTable | utils/achievementSystem.js:23-34 | a list of distinct ids all from the table is no longer than the table |
| AchievementSystem.ProgressBounded | utils/achievementSystem.js:33-39 | for a stored list the unlock loop can produce, unlocked is at most total and the percentage at most 100 |
| GameModes.GetGameMode | constants/gameModes.js:502 | daily, speed and puzzle select their mode and every other id selects classic |
| GameModes.ClassicConfigFallback | constants/gameModes.js:41-56 | a known difficulty gives its max and trials; an unknown one gives medium's 100 and 7; no timer, no preset target |
| GameModes.DailyConfigCases | constants/gameModes.js:110-158 | a config exists iff the record is present, range, trials and target are truthy and the target lies in [1, maxRange]; it carries those values and a 30 or 60 s timer chosen by the rule text |
| GameModes.SpeedConfigCases | constants/gameModes.js:241-284 | a config exists iff range, time limit and target are truthy; it has a timer of that limit, unbounded trials and the unlimited rule |
| GameModes.PuzzleConfigCases | constants/gameModes.js:374-442 | a config exists iff the solution is present and numeric, the puzzle a non-empty string and the hints a non-empty list; defaults are max 100, 5 trials, 180 s, medium and min(3, hints) hints; each truthy range, attempts, time limit, difficulty, hint count and type is used as given, and the puzzle text and hints are carried over |
| GameModes.GenerateTargetCases | constants/gameModes.js:58-163 | a classic target lies in [1, max]; a daily config's target is exactly the preset one, within range |
| GameModes.ValidateGuessAccepts | constants/gameModes.js:60-456 | an accepted guess is the parsed value, in [1, max] ([0, max] in puzzle mode) and new; outside the daily rules that is also sufficient |
| GameModes.JsRemFive | constants/gameModes.js:187 | JavaScript's `g % 5 !== 0` agrees with non-divisibility by 5, negative guesses included |
| GameModes.DailyRules | constants/gameModes.js:174-190 | only_multiples_of_5 accepts exactly the valid multiples of 5; no_consecutive_direction refuses a guess on the same side of the target as the last one |
| GameModes.DailyTargetAfterLowGuess | constants/gameModes.js:174-183 | under no_consecutive_direction the target is refused right after a guess below it, and accepted right after a guess above it |
| GameModes.BoundedTransition | constants/gameModes.js:71-498 | the guess is appended and trials drop by one; won iff the guess hits, even on the last trial; lost iff a miss spends the last trial, with trials 0; else playing |
| GameModes.SpeedTransition | constants/gameModes.js:301-363 | speed never loses, trials stay unbounded, the guess is appended; with the bonus the bands are 3, 10, 25, 50, else getHint's |
| GameModes.ReverseHints | constants/gameModes.js:214-228 | reverse_hints says lower exactly where getHint says higher and vice versa, with getHint's band |
| GameModes.PuzzleHints | constants/gameModes.js:477-496 | puzzle bands are very close up to 3, close up to 10, far above, and a far hint names the trials left |
| GameModes.AcceptedGuessPreserves | constants/gameModes.js:60-498 | validating then handling keeps the history distinct and in range; trials plus guesses stay at the budget, with a trial left while playing and none when lost |
| SpeedChallenge.GenerateChallengeShape | utils/speedChallengeGenerator.js:6-61 | an unknown difficulty uses the medium row; the time is the row's limit moved by -5..5, at least 20; the target lies in [1, maxRange]; the bonus is on iff the draw exceeds 0.7 |
| SpeedChallenge.GeneratedChallengeConfigures | utils/speedChallengeGenerator.js:46-57 | every generated challenge passes speed mode's getConfig, keeping its target and time limit |
| SpeedChallenge.ScoreBonuses | utils/speedChallengeGenerator.js:64-94 | the efficiency bonus is never negative, 0 iff 20 guesses or more, else `200 - 10 * guesses`; the proximity bonus is 50 iff the challenge has it, else 0 |
| SpeedChallenge.EfficiencyMonotone | utils/speedChallengeGenerator.js:76 | more guesses never earn a larger efficiency bonus |
| SpeedChallenge.ScoreOnlyOnWin | utils/speedChallengeGenerator.js:104-107 | the score is present iff the game was won, and is then the challenge's score |
| SpeedChallenge.UpdateStatsAsWritten | utils/speedChallengeGenerator.js:97-146 | the update settles iff the storage object has both `getSpeedStats` and `saveSpeedStats`, and then with the fold on the fetched record; without the getter it rejects with a TypeError naming it |
| SpeedChallenge.UpdateStatsAlwaysRejects | utils/speedChallengeGenerator.js:97-98 | on the storage object of `utils/storage.js` the update always rejects with a TypeError on `getSpeedStats` |
| SpeedChallenge.UpdateStatsCounters | utils/speedChallengeGenerator.js:110-142 | one more game overall and in the bucket, one more win iff won, guesses always added, other buckets unchanged |
| SpeedChallenge.UpdateStatsBests | utils/speedChallengeGenerator.js:121-137 | best time and guesses change only on a win, to the minimum, or to the new value when the old is falsy (0 included) |
| SpeedChallenge.UpdateStatsPreservesInvariant | utils/speedChallengeGenerator.js:118-142 | wins never exceed games, overall or per bucket |
| SpeedChallenge.BestNeverWorsens | utils/speedChallengeGenerator.js:124-126 | a set best guess count never increases |
| PuzzleChallenge.DifficultyConfigRows | utils/puzzleChallengeGenerator.js:37-62 | the rows are easy 7/240/3, medium 5/180/2, hard 4/120/1, extreme 3/90/1; exactly those four keys; fewer attempts go with less time |
| PuzzleChallenge.BuildChallengeCases | utils/puzzleChallengeGenerator.js:118-147 | a non-numeric solution gives null, a missing config raises; otherwise the solution, the row's attempts and time, hints on offer at most the hints, range defaulting to 100 |
| PuzzleChallenge.GenerateChallengeRejects | utils/puzzleChallengeGenerator.js:65-116 | an unknown type gives null; on the main path a falsy solution gives null and nothing raises; raising needs an unknown difficulty |
| PuzzleChallenge.AvailablePuzzleCount | utils/puzzleChallengeGenerator.js:242-252 | the count is a non-negative multiple of 999 |
| PuzzleChallenge.AvailableMeansMainPath | utils/puzzleChallengeGenerator.js:242-252 | the count is positive iff the type lists generators for the difficulty, so generation takes the validated path; it is then 999 per generator |
| PuzzleChallenge.GeneratedChallengeShape | utils/puzzleChallengeGenerator.js:65-147 | a built challenge has a known difficulty, that row's attempts and time, and no more hints on offer than hints |
| PuzzleChallenge.BuiltChallengeConfigures | utils/puzzleChallengeGenerator.js:118-147 | a built challenge passes puzzle getConfig iff it has a hint, with its solution as target and its attempts as budget |
| PuzzleChallenge.NullMin | utils/puzzleChallengeGenerator.js:178-184 | a minimum where only null means unset: the smaller of the set best and the value, else the value |
| PuzzleChallenge.TypeBucketAfterCases | utils/puzzleChallengeGenerator.js:161-189 | a missing bucket starts at zero; games +1, wins and attempts only on a win, minimum attempts and time on a win, hints accumulated |
| PuzzleChallenge.DifficultyBucketAfterCases | utils/puzzleChallengeGenerator.js:192-210 | a missing bucket starts at zero; games +1, a win adds a win and keeps the minimum time |
| PuzzleChallenge.UpdateStatsAsWritten | utils/puzzleChallengeGenerator.js:149-230 | the update gets past its storage calls iff the object has both `getPuzzleStats` and `savePuzzleStats`; without the getter it rejects with a TypeError naming it |
| PuzzleChallenge.UpdateStatsAlwaysRejects | utils/puzzleChallengeGenerator.js:149-155 | on the storage object of `utils/storage.js` the update always rejects with a TypeError on `getPuzzleStats` |
| PuzzleChallenge.PuzzleStats.UpdateStats | utils/puzzleChallengeGenerator.js:154-231 | the type and difficulty buckets are updated in place, the totals count the game, a win extends the streak and the longest, a loss resets it; a valid object stays valid |
| PuzzleChallenge.PuzzleStats.UpdateTypeBucket | utils/puzzleChallengeGenerator.js:161-189 | only the type's bucket changes, to its updated value |
| PuzzleChallenge.PuzzleStats.UpdateDifficultyBucket | utils/puzzleChallengeGenerator.js:192-210 | only the difficulty's bucket changes, to its updated value |
| PuzzleChallenge.PuzzleStats.UpdateOverall | utils/puzzleChallengeGenerator.js:213-227 | totals, streaks and the null-aware best time after a win or a loss |
| GameScreen.CheckGuess | screens/GameScreen.js:54-62 | fresh iff parsed, in [1, max] and not yet guessed, carrying that value; repeated iff in range but already guessed |
| GameScreen.WinStatsCounters | screens/GameScreen.js:88-111 | a win adds a game, a win and a streak step, keeps the longest streak as max, counts perfect iff 1 attempt and comeback iff 1 trial was left before, updates only its bucket |
| GameScreen.LossStatsCounters | screens/GameScreen.js:134-147 | a loss adds a game and a loss, resets the streak and changes only the bucket's game count |
| GameScreen.StatsFoldsPreserveInvariant | screens/GameScreen.js:92-147 | both folds keep games = wins + losses, the longest streak at least the current one, and every bucket's wins within its games |
| GameScreen.DefaultsHaveBuckets | utils/storage.js:29-33 | on fresh storage both folds succeed for every known difficulty |
| GameScreen.Session.constructor | screens/GameScreen.js:15-46 | a known difficulty starts with its full trials, empty history, playing, and the provided target when truthy, else a draw in [1, max] |
| GameScreen.Session.HandleGuess | screens/GameScreen.js:48-79 | a blank field or finished game changes nothing; a rejected guess changes only the hint; a fresh one spends a trial and is appended, wins iff it hits the (unchanged) target with the win fold saved and its unlocked achievements kept for the alert, loses iff a miss leaves 0 trials, else hints; proximity changes only with a hint; validity is kept |
| GameScreen.AcceptKeepsInvariant | screens/GameScreen.js:64-76 | accepting a new in-range guess while playing keeps the session invariant, with the status a hit, a last miss or another miss leads to |
| GameScreen.Session.Accept | screens/GameScreen.js:64-76 | one trial is spent and the guess appended; won iff it hits, with the win fold saved, achievements checked and their list kept for the alert; lost iff a miss leaves 0 trials, with the loss fold; else a getHint hint; proximity changes only with a hint and the alert list only on a win |
| GameScreen.Session.HandleWin | screens/GameScreen.js:81-127 | status won; the store is the win fold saved, then the achievement check applied; the alert list is what that check unlocked |
| GameScreen.Session.HandleLoss | screens/GameScreen.js:129-150 | status lost, and the store is the loss fold saved |
| GameScreen.WinAttemptsAreGuesses | screens/GameScreen.js:64-99 | the attempts a win records are the guesses made, so perfect iff first guess, comeback iff the winning guess used the last trial |
| GameScreen.EasyScenario | screens/GameScreen.js:48-111 | easy, target 27, guesses 10, 40, 25, 27: hints medium, close, very close, a win with 4 attempts, neither perfect nor comeback, best 4 |
| GameScreen.HardComebackScenario | screens/GameScreen.js:89-111 | a hard win on the last of 5 trials counts a comeback and not a perfect game |
| GameScreen.FirstWinAlerts | screens/GameScreen.js:111-124 | the first win on a fresh store alerts the first_win achievement |

## Left out

- Floating-point parts are not modelled:
  - the speed time bonus and the total score;
  - `averageGuesses` and its rounding;
  - `efficiencyScore` and the rounded total of `GameLogic.calculateScore`;
  - the puzzle `pointsMultiplier` and `averageHintsUsed`.
  The multipliers are kept as exact reals in the tables.
- AchievementSystem.CheckAchievements: `new Date().toISOString()` is read once per unlocked entry, but the model stamps every entry of one check with the same `now`. The readings of one check are taken to be equal, so the model does not promise the separate timestamps the code could produce when a check straddles a millisecond.
- AchievementSystem.ProgressIsFourPercentEach: computes `Math.round(count / 25 * 100)` on exact reals. Double rounding is not modelled, and for these values it would not change the result.
- Message wording and emoji are not kept. Hints with interpolated numbers are datatype variants carrying those numbers. Texts are kept without their emoji.
- `parseInt` is not modelled. A guess arrives already parsed, with `None` for `NaN`. The puzzle solution is likewise an already-parsed number. The source's truthiness check on a string solution such as `"0"` is therefore not modelled.
- Puzzle hints: a truthy non-array `hints` value, which `_buildChallenge` turns into `[]`, is not modelled.
- Clock and dates:
  - `Date`, `toISOString` and `Date.now()` are left out; the ISO timestamp and the clock readings are parameters.
  - `hasPlayedToday` parses its stored date through `new Date(...)`. The model compares date prefixes of the strings as given.
- Randomness: each `Math.random()` draw is a parameter in [0, 1). The random challenge ids are left out.
- AsyncStorage is left out:
  - storage is a value, read and written in program order;
  - `async`/`await` interleaving and storage errors are not modelled;
  - `Storage.getSpeedStats`, `saveSpeedStats`, `getPuzzleStats` and `savePuzzleStats` do not exist in `utils/storage.js`. As written, both `updateStats` functions therefore always reject with a TypeError before any counter changes (see "## Findings"). `SpeedChallenge.UpdateStats` and `PuzzleChallenge.PuzzleStats.UpdateStats` model the fold the code spells out after the missing getter, on a record given as a parameter.
- Settings and `clearAll` in `utils/storage.js` are not part of the game rules.
- The daily streak fields (`currentStreak`, `longestStreak`, `results`) and `dailyStreak` are read, but not written by any file modelled here. No streak tracker is invented.
- The speed countdown and timeout, the alert delay, notifications and all rendering and navigation are left out.
- Clearing the text field after a guess is left out, because it is UI state.
- Puzzle content:
  - the templates in `constants/puzzleTemplates.js` are left out as content; their output is catalog data given to `GenerateChallenge`;
  - `getPuzzleTypes` is represented only by the type keys;
  - the type metadata and `typeInfo` defaults are left out.
  Classic, daily and puzzle bands otherwise follow the code.
- Puzzle hints: hint consumption (`hintsUsed` against `hintsAvailable`) is implemented nowhere, so only the initial values are modelled.
- `charCodeAt` gives UTF-16 code units. The model uses the character's code, which is the same for the ASCII date strings the generator receives.
- The `GAME_MODES` registry is not used by any screen of the repository. It is modelled on its own terms, and the classic screen keeps its own equivalent logic.

## Findings

| source | as written | input that shows it | evidently intended | confidence | as-written member | corrected member |
|---|---|---|---|---|---|---|
| utils/speedChallengeGenerator.js:98 | `updateStats` awaits `Storage.getSpeedStats()`, which `utils/storage.js` does not define | any call, e.g. a won medium challenge | read the speed record, fold the game in and save it | not executed; high, the method is absent from the storage object | SpeedChallenge.UpdateStatsAlwaysRejects | SpeedChallenge.UpdateStatsPreservesInvariant |
| utils/puzzleChallengeGenerator.js:150 | `getStats`, and so `updateStats`, awaits `Storage.getPuzzleStats()`, which `utils/storage.js` does not define | any call, e.g. a lost easy puzzle | read the puzzle record, fold the game in and save it | not executed; high, the method is absent from the storage object | PuzzleChallenge.UpdateStatsAlwaysRejects | PuzzleChallenge.PuzzleStats.UpdateStats |
