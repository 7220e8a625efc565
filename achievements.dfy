/**
 * The achievement table: 25 entries, each a threshold condition on the
 * classic statistics, grouped into eight categories.
 */
module Achievements {
  import opened Storage

  /** The conditions the table uses, one constructor per shape of closure. */
  datatype Rule =
    | TotalWinsAtLeast(n: int)
    | TotalGamesAtLeast(n: int)
    | LongestWinStreakAtLeast(n: int)
    | PerfectGamesAtLeast(n: int)
    | ComebacksAtLeast(n: int)
    | DifficultyWinsAtLeast(difficulty: string, n: int)
    | DailyStreakAtLeast(n: int)
    | WinRateAtLeast(minGames: int, rate: real)

  datatype Achievement = Achievement(
    id: string,
    title: string,
    description: string,
    category: string,
    condition: Rule)

  /**
   * `wins / games >= rate` in JavaScript for a positive rate: a zero
   * denominator gives Infinity (true) for positive wins and NaN or -Infinity
   * (false) otherwise.
   */
  predicate RatioAtLeast(wins: int, games: int, rate: real) {
    if games == 0 then wins > 0 else (wins as real) / (games as real) >= rate
  }

  /** `condition(stats)`; a difficulty missing from `byDifficulty` makes the optional chain fail. */
  predicate Holds(rule: Rule, stats: UserStats) {
    match rule
    case TotalWinsAtLeast(n) => stats.totalWins >= n
    case TotalGamesAtLeast(n) => stats.totalGames >= n
    case LongestWinStreakAtLeast(n) => stats.longestWinStreak >= n
    case PerfectGamesAtLeast(n) => stats.perfectGames >= n
    case ComebacksAtLeast(n) => stats.comebacks >= n
    case DifficultyWinsAtLeast(d, n) => d in stats.byDifficulty && stats.byDifficulty[d].wins >= n
    case DailyStreakAtLeast(n) => stats.dailyStreak >= n
    case WinRateAtLeast(m, rate) => stats.totalGames >= m && RatioAtLeast(stats.totalWins, stats.totalGames, rate)
  }

  const FIRST_WIN: Achievement :=
    Achievement("first_win", "First Victory", "Win your first game", "beginner", TotalWinsAtLeast(1))
  const FIRST_STEPS: Achievement :=
    Achievement("first_steps", "First Steps", "Play 5 games", "beginner", TotalGamesAtLeast(5))
  const GETTING_STARTED: Achievement :=
    Achievement("getting_started", "Getting Started", "Play 10 games", "progress", TotalGamesAtLeast(10))
  const WIN_STREAK_3: Achievement :=
    Achievement("win_streak_3", "Triple Threat", "Win 3 games in a row", "streak", LongestWinStreakAtLeast(3))
  const WIN_STREAK_5: Achievement :=
    Achievement("win_streak_5", "Hot Streak", "Win 5 games in a row", "streak", LongestWinStreakAtLeast(5))
  const WIN_STREAK_10: Achievement :=
    Achievement("win_streak_10", "Unstoppable", "Win 10 games in a row", "streak", LongestWinStreakAtLeast(10))
  const WIN_STREAK_20: Achievement :=
    Achievement("win_streak_20", "Legendary", "Win 20 games in a row", "streak", LongestWinStreakAtLeast(20))
  const PERFECT_GAME: Achievement :=
    Achievement("perfect_game", "Perfect Game", "Win in one attempt", "special", PerfectGamesAtLeast(1))
  const PERFECT_FIVE: Achievement :=
    Achievement("perfect_five", "Perfectionist", "Win 5 perfect games", "special", PerfectGamesAtLeast(5))
  const COMEBACK_KING: Achievement :=
    Achievement("comeback_king", "Comeback King", "Win with only 1 attempt left", "special", ComebacksAtLeast(1))
  const CLUTCH_MASTER: Achievement :=
    Achievement("clutch_master", "Clutch Master", "Win 10 times with 1 attempt left", "special", ComebacksAtLeast(10))
  const GAMES_25: Achievement :=
    Achievement("games_25", "Regular Player", "Play 25 games", "progress", TotalGamesAtLeast(25))
  const GAMES_50: Achievement :=
    Achievement("games_50", "Dedicated Player", "Play 50 games", "progress", TotalGamesAtLeast(50))
  const GAMES_100: Achievement :=
    Achievement("games_100", "Century Club", "Play 100 games", "progress", TotalGamesAtLeast(100))
  const GAMES_250: Achievement :=
    Achievement("games_250", "Veteran", "Play 250 games", "progress", TotalGamesAtLeast(250))
  const MASTER_EASY: Achievement :=
    Achievement("master_easy", "Easy Master", "Win 20 easy games", "difficulty", DifficultyWinsAtLeast("easy", 20))
  const MASTER_MEDIUM: Achievement :=
    Achievement("master_medium", "Medium Master", "Win 20 medium games", "difficulty", DifficultyWinsAtLeast("medium", 20))
  const MASTER_HARD: Achievement :=
    Achievement("master_hard", "Hard Master", "Win 20 hard games", "difficulty", DifficultyWinsAtLeast("hard", 20))
  const GRAND_MASTER: Achievement :=
    Achievement("grand_master", "Grand Master", "Win 50 games on hard difficulty", "difficulty", DifficultyWinsAtLeast("hard", 50))
  const DAILY_STREAK_3: Achievement :=
    Achievement("daily_streak_3", "Daily Habit", "Complete 3 daily challenges in a row", "daily", DailyStreakAtLeast(3))
  const DAILY_STREAK_7: Achievement :=
    Achievement("daily_streak_7", "Weekly Warrior", "Complete 7 daily challenges in a row", "daily", DailyStreakAtLeast(7))
  const DAILY_STREAK_30: Achievement :=
    Achievement("daily_streak_30", "Monthly Master", "Complete 30 daily challenges in a row", "daily", DailyStreakAtLeast(30))
  const WIN_RATE_50: Achievement :=
    Achievement("win_rate_50", "Fifty Percent", "Achieve 50% win rate (min 20 games)", "winrate", WinRateAtLeast(20, 0.5))
  const WIN_RATE_75: Achievement :=
    Achievement("win_rate_75", "Three Quarters", "Achieve 75% win rate (min 30 games)", "winrate", WinRateAtLeast(30, 0.75))
  const NUMERIX_LEGEND: Achievement :=
    Achievement("numerix_legend", "NUMERIX Legend", "Win 100 games total", "ultimate", TotalWinsAtLeast(100))

  const ACHIEVEMENTS: seq<Achievement> := [
    FIRST_WIN, FIRST_STEPS, GETTING_STARTED, WIN_STREAK_3,
    WIN_STREAK_5, WIN_STREAK_10, WIN_STREAK_20, PERFECT_GAME,
    PERFECT_FIVE, COMEBACK_KING, CLUTCH_MASTER, GAMES_25,
    GAMES_50, GAMES_100, GAMES_250, MASTER_EASY,
    MASTER_MEDIUM, MASTER_HARD, GRAND_MASTER, DAILY_STREAK_3,
    DAILY_STREAK_7, DAILY_STREAK_30, WIN_RATE_50, WIN_RATE_75,
    NUMERIX_LEGEND
  ]

  const ACHIEVEMENT_CATEGORIES: map<string, string> := map[
    "beginner" := "Beginner",
    "progress" := "Progress",
    "streak" := "Win Streaks",
    "special" := "Special",
    "difficulty" := "Difficulty",
    "daily" := "Daily Challenge",
    "winrate" := "Win Rate",
    "ultimate" := "Ultimate"
  ]

  /** No two entries of a table share an id. */
  predicate DistinctIds(table: seq<Achievement>) {
    forall i, j :: 0 <= i < j < |table| ==> table[i].id != table[j].id
  }

  /** A cheap fingerprint of an id: its length and its first and last two characters. */
  function Fingerprint(id: string): int {
    if |id| < 2 then 0
    else |id| * 0x100_0000 + (id[0] as int) * 0x1_0000 + (id[|id| - 1] as int) * 0x100 + id[|id| - 2] as int
  }

  /** The table index whose id has this fingerprint, -1 for none. */
  function FingerprintPosition(key: int): int {
    if key == 157707881 then 0
    else if key == 191263600 then 1
    else if key == 258434149 then 2
    else if key == 209138527 then 3
    else if key == 209139039 then 4
    else if key == 225914929 then 5
    else if key == 225914930 then 6
    else if key == 208692589 then 7
    else if key == 208692598 then 8
    else if key == 224618350 then 9
    else if key == 224621157 then 10
    else if key == 140981554 then 11
    else if key == 140980277 then 12
    else if key == 157757488 then 13
    else if key == 157757493 then 14
    else if key == 191723891 then 15
    else if key == 225275253 then 16
    else if key == 191718514 then 17
    else if key == 208106085 then 18
    else if key == 241447775 then 19
    else if key == 241448799 then 20
    else if key == 258224179 then 21
    else if key == 192360501 then 22
    else if key == 192361783 then 23
    else if key == 242115694 then 24
    else -1
  }

  /** Each entry's fingerprint leads back to its own index, five entries at a time. */
  lemma FingerprintsIndex0()
    ensures forall i :: 0 <= i < 5 ==> FingerprintPosition(Fingerprint(ACHIEVEMENTS[i].id)) == i
  {
    assert |ACHIEVEMENTS| == 25;
    assert FingerprintPosition(Fingerprint(FIRST_WIN.id)) == 0;
    assert FingerprintPosition(Fingerprint(FIRST_STEPS.id)) == 1;
    assert FingerprintPosition(Fingerprint(GETTING_STARTED.id)) == 2;
    assert FingerprintPosition(Fingerprint(WIN_STREAK_3.id)) == 3;
    assert FingerprintPosition(Fingerprint(WIN_STREAK_5.id)) == 4;
  }

  lemma FingerprintsIndex1()
    ensures forall i :: 5 <= i < 10 ==> FingerprintPosition(Fingerprint(ACHIEVEMENTS[i].id)) == i
  {
    assert |ACHIEVEMENTS| == 25;
    assert FingerprintPosition(Fingerprint(WIN_STREAK_10.id)) == 5;
    assert FingerprintPosition(Fingerprint(WIN_STREAK_20.id)) == 6;
    assert FingerprintPosition(Fingerprint(PERFECT_GAME.id)) == 7;
    assert FingerprintPosition(Fingerprint(PERFECT_FIVE.id)) == 8;
    assert FingerprintPosition(Fingerprint(COMEBACK_KING.id)) == 9;
  }

  lemma FingerprintsIndex2()
    ensures forall i :: 10 <= i < 15 ==> FingerprintPosition(Fingerprint(ACHIEVEMENTS[i].id)) == i
  {
    assert |ACHIEVEMENTS| == 25;
    assert FingerprintPosition(Fingerprint(CLUTCH_MASTER.id)) == 10;
    assert FingerprintPosition(Fingerprint(GAMES_25.id)) == 11;
    assert FingerprintPosition(Fingerprint(GAMES_50.id)) == 12;
    assert FingerprintPosition(Fingerprint(GAMES_100.id)) == 13;
    assert FingerprintPosition(Fingerprint(GAMES_250.id)) == 14;
  }

  lemma FingerprintsIndex3()
    ensures forall i :: 15 <= i < 20 ==> FingerprintPosition(Fingerprint(ACHIEVEMENTS[i].id)) == i
  {
    assert |ACHIEVEMENTS| == 25;
    assert FingerprintPosition(Fingerprint(MASTER_EASY.id)) == 15;
    assert FingerprintPosition(Fingerprint(MASTER_MEDIUM.id)) == 16;
    assert FingerprintPosition(Fingerprint(MASTER_HARD.id)) == 17;
    assert FingerprintPosition(Fingerprint(GRAND_MASTER.id)) == 18;
    assert FingerprintPosition(Fingerprint(DAILY_STREAK_3.id)) == 19;
  }

  lemma FingerprintsIndex4()
    ensures forall i :: 20 <= i < 25 ==> FingerprintPosition(Fingerprint(ACHIEVEMENTS[i].id)) == i
  {
    assert |ACHIEVEMENTS| == 25;
    assert FingerprintPosition(Fingerprint(DAILY_STREAK_7.id)) == 20;
    assert FingerprintPosition(Fingerprint(DAILY_STREAK_30.id)) == 21;
    assert FingerprintPosition(Fingerprint(WIN_RATE_50.id)) == 22;
    assert FingerprintPosition(Fingerprint(WIN_RATE_75.id)) == 23;
    assert FingerprintPosition(Fingerprint(NUMERIX_LEGEND.id)) == 24;
  }

  /** No two entries of the table share an id. */
  lemma IdsDistinct()
    ensures DistinctIds(ACHIEVEMENTS)
  {
    FingerprintsIndex0(); FingerprintsIndex1(); FingerprintsIndex2(); FingerprintsIndex3(); FingerprintsIndex4();
    forall i, j | 0 <= i < j < |ACHIEVEMENTS|
      ensures ACHIEVEMENTS[i].id != ACHIEVEMENTS[j].id
    {
      assert FingerprintPosition(Fingerprint(ACHIEVEMENTS[i].id)) != FingerprintPosition(Fingerprint(ACHIEVEMENTS[j].id));
    }
  }

  /** The table has 25 entries with distinct ids, each in a declared category. */
  lemma TableWellFormed()
    ensures |ACHIEVEMENTS| == 25
    ensures DistinctIds(ACHIEVEMENTS)
    ensures forall a :: a in ACHIEVEMENTS ==> a.category in ACHIEVEMENT_CATEGORIES
  {
    IdsDistinct();
    CategoriesDeclared();
  }

  /** Every entry's category is a key of the category map. */
  lemma CategoriesDeclared()
    ensures forall a :: a in ACHIEVEMENTS ==> a.category in ACHIEVEMENT_CATEGORIES
  {
    var keys := ACHIEVEMENT_CATEGORIES.Keys;
    assert "beginner" in keys && "progress" in keys && "streak" in keys && "special" in keys;
    assert "difficulty" in keys && "daily" in keys && "winrate" in keys && "ultimate" in keys;
    forall i | 0 <= i < |ACHIEVEMENTS|
      ensures ACHIEVEMENTS[i].category in keys
    {
    }
  }

  /** A higher win-streak achievement implies every lower one. */
  lemma StreakThresholdsNested(stats: UserStats)
    ensures Holds(WIN_STREAK_20.condition, stats) ==> Holds(WIN_STREAK_10.condition, stats)
    ensures Holds(WIN_STREAK_10.condition, stats) ==> Holds(WIN_STREAK_5.condition, stats)
    ensures Holds(WIN_STREAK_5.condition, stats) ==> Holds(WIN_STREAK_3.condition, stats)
  {
  }

  /** The games-played milestones 5, 10, 25, 50, 100 and 250 are nested the same way. */
  lemma GamesThresholdsNested(stats: UserStats)
    ensures Holds(GAMES_250.condition, stats) ==> Holds(GAMES_100.condition, stats)
    ensures Holds(GAMES_100.condition, stats) ==> Holds(GAMES_50.condition, stats)
    ensures Holds(GAMES_50.condition, stats) ==> Holds(GAMES_25.condition, stats)
    ensures Holds(GAMES_25.condition, stats) ==> Holds(GETTING_STARTED.condition, stats)
    ensures Holds(GETTING_STARTED.condition, stats) ==> Holds(FIRST_STEPS.condition, stats)
  {
  }

  /** The stronger special and difficulty achievements imply their weaker partners. */
  lemma SpecialImplications(stats: UserStats)
    ensures Holds(GRAND_MASTER.condition, stats) ==> Holds(MASTER_HARD.condition, stats)
    ensures Holds(PERFECT_FIVE.condition, stats) ==> Holds(PERFECT_GAME.condition, stats)
    ensures Holds(CLUTCH_MASTER.condition, stats) ==> Holds(COMEBACK_KING.condition, stats)
    ensures Holds(NUMERIX_LEGEND.condition, stats) ==> Holds(FIRST_WIN.condition, stats)
  {
  }

  /** For a positive number of games, `wins / games >= num / den` is `den * wins >= num * games`. */
  lemma RatioIntegerForm(wins: int, games: int, num: int, den: int)
    requires games > 0 && den > 0
    ensures RatioAtLeast(wins, games, num as real / den as real) <==> den * wins >= num * games
  {
    var w, g, n, d := wins as real, games as real, num as real, den as real;
    calc {
      w / g >= n / d;
    <==> { assert g * d > 0.0; }
      (w / g) * (g * d) >= (n / d) * (g * d);
    <==> { assert (w / g) * (g * d) == w * d; assert (n / d) * (g * d) == n * g; }
      w * d >= n * g;
    }
    assert w * d == (wins * den) as real;
    assert n * g == (num * games) as real;
  }

  /** The two win-rate conditions, in integer form. */
  lemma WinRateIntegerForm(stats: UserStats)
    ensures Holds(WIN_RATE_50.condition, stats) <==>
              stats.totalGames >= 20 && 2 * stats.totalWins >= stats.totalGames
    ensures Holds(WIN_RATE_75.condition, stats) <==>
              stats.totalGames >= 30 && 4 * stats.totalWins >= 3 * stats.totalGames
  {
    if stats.totalGames > 0 {
      RatioIntegerForm(stats.totalWins, stats.totalGames, 1, 2);
      RatioIntegerForm(stats.totalWins, stats.totalGames, 3, 4);
    }
  }

  /** A 75% win rate over at least 30 games implies the 50% achievement. */
  lemma WinRateNested(stats: UserStats)
    ensures Holds(WIN_RATE_75.condition, stats) ==> Holds(WIN_RATE_50.condition, stats)
  {
    WinRateIntegerForm(stats);
  }
}
