/**
 * The persisted records and the key-value store that holds them. Reading a
 * key that was never written yields the documented default record; writing
 * replaces the whole record. The store is a value passed in and out, so the
 * asynchronous I/O of the device store is not part of this model.
 */
module Storage {
  import opened Wrappers

  /** One difficulty's counters in the classic statistics. */
  datatype DifficultyBucket = DifficultyBucket(
    games: int,
    wins: int,
    totalAttempts: int,
    bestAttempts: Option<int>)

  /** The classic statistics record saved under the user-stats key. */
  datatype UserStats = UserStats(
    totalGames: int,
    totalWins: int,
    totalLosses: int,
    currentWinStreak: int,
    longestWinStreak: int,
    perfectGames: int,
    comebacks: int,
    dailyStreak: int,
    byDifficulty: map<string, DifficultyBucket>)

  /** An unlocked achievement as it is stored: the table entry plus its unlock time. */
  datatype StoredAchievement = StoredAchievement(
    id: string,
    title: string,
    description: string,
    category: string,
    unlockedAt: string)

  datatype DayResult = DayResult(date: string, won: bool, attempts: int)

  /** The daily-challenge record saved under the daily key. */
  datatype DailyRecord = DailyRecord(
    lastPlayedDate: Option<string>,
    currentStreak: int,
    longestStreak: int,
    results: seq<DayResult>)

  /** The store: one optional record per key, `None` for a key never written. */
  datatype Store = Store(
    stats: Option<UserStats>,
    achievements: Option<seq<StoredAchievement>>,
    daily: Option<DailyRecord>)

  const EMPTY_BUCKET: DifficultyBucket := DifficultyBucket(0, 0, 0, None)

  const DEFAULT_STATS: UserStats := UserStats(0, 0, 0, 0, 0, 0, 0, 0,
    map["easy" := EMPTY_BUCKET, "medium" := EMPTY_BUCKET, "hard" := EMPTY_BUCKET])

  const DEFAULT_DAILY: DailyRecord := DailyRecord(None, 0, 0, [])

  const EMPTY_STORE: Store := Store(None, None, None)

  /** The methods the `Storage` object defines. */
  const STORAGE_METHODS: set<string> := {
    "getSettings", "saveSettings", "getStats", "saveStats", "getAchievements",
    "saveAchievements", "getDailyChallenge", "saveDailyChallenge", "clearAll"}

  /**
   * How an `async` function that calls `Storage` methods settles: with its
   * value, or rejected with a TypeError because the property it called is
   * `undefined`.
   */
  datatype Call<T> = Resolved(value: T) | TypeError(missing: string)

  /** The statistics accessors of the speed and puzzle modes are not among the methods. */
  lemma ModeStatsAccessorsMissing()
    ensures "getSpeedStats" !in STORAGE_METHODS && "saveSpeedStats" !in STORAGE_METHODS
    ensures "getPuzzleStats" !in STORAGE_METHODS && "savePuzzleStats" !in STORAGE_METHODS
  {
  }

  function GetStats(store: Store): UserStats {
    if store.stats.Some? then store.stats.value else DEFAULT_STATS
  }

  function SaveStats(store: Store, stats: UserStats): Store {
    store.(stats := Some(stats))
  }

  function GetAchievements(store: Store): seq<StoredAchievement> {
    if store.achievements.Some? then store.achievements.value else []
  }

  function SaveAchievements(store: Store, list: seq<StoredAchievement>): Store {
    store.(achievements := Some(list))
  }

  function GetDailyChallenge(store: Store): DailyRecord {
    if store.daily.Some? then store.daily.value else DEFAULT_DAILY
  }

  /**
   * The invariants the statistics model keeps: counters are non-negative,
   * every game is a win or a loss, the longest streak bounds the current one,
   * and no difficulty has more wins than games.
   */
  ghost predicate StatsInvariant(s: UserStats) {
    && s.totalWins >= 0 && s.totalLosses >= 0 && s.currentWinStreak >= 0
    && s.perfectGames >= 0 && s.comebacks >= 0
    && s.totalGames == s.totalWins + s.totalLosses
    && s.longestWinStreak >= s.currentWinStreak
    && forall k :: k in s.byDifficulty ==> 0 <= s.byDifficulty[k].wins <= s.byDifficulty[k].games
  }

  /** A store nobody has written to reads as the defaults, and they satisfy the invariant. */
  lemma EmptyStoreDefaults()
    ensures GetStats(EMPTY_STORE) == DEFAULT_STATS && StatsInvariant(DEFAULT_STATS)
    ensures GetAchievements(EMPTY_STORE) == []
    ensures GetDailyChallenge(EMPTY_STORE) == DailyRecord(None, 0, 0, [])
    ensures DEFAULT_STATS.byDifficulty.Keys == {"easy", "medium", "hard"}
  {
  }

  /** Reading a key returns what was last written to it, and other keys are untouched. */
  lemma ReadAfterWrite(store: Store, stats: UserStats, list: seq<StoredAchievement>)
    ensures GetStats(SaveStats(store, stats)) == stats
    ensures GetAchievements(SaveStats(store, stats)) == GetAchievements(store)
    ensures GetDailyChallenge(SaveStats(store, stats)) == GetDailyChallenge(store)
    ensures GetAchievements(SaveAchievements(store, list)) == list
    ensures GetStats(SaveAchievements(store, list)) == GetStats(store)
    ensures GetDailyChallenge(SaveAchievements(store, list)) == GetDailyChallenge(store)
  {
  }
}
