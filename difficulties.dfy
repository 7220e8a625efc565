/** The classic difficulty table: range, trial budget and points multiplier per level. */
module Difficulties {
  import opened Wrappers

  datatype DifficultyRow = DifficultyRow(
    max: int,
    trials: int,
    name: string,
    color: string,
    pointsMultiplier: int)

  const EASY: DifficultyRow := DifficultyRow(50, 10, "Easy", "easy", 1)
  const MEDIUM: DifficultyRow := DifficultyRow(100, 7, "Medium", "medium", 2)
  const HARD: DifficultyRow := DifficultyRow(200, 5, "Hard", "hard", 3)

  /** `DIFFICULTIES[key]`, `None` for a key the table does not have. */
  function Lookup(key: string): Option<DifficultyRow> {
    if key == "easy" then Some(EASY)
    else if key == "medium" then Some(MEDIUM)
    else if key == "hard" then Some(HARD)
    else None
  }

  /** The table has exactly the keys easy, medium and hard. */
  lemma LookupKeys(key: string)
    ensures Lookup(key).Some? <==> key in {"easy", "medium", "hard"}
  {
  }

  lemma EasyRow()
    ensures Lookup("easy") == Some(DifficultyRow(50, 10, "Easy", "easy", 1))
  {
  }

  lemma MediumRow()
    ensures Lookup("medium") == Some(DifficultyRow(100, 7, "Medium", "medium", 2))
  {
  }

  lemma HardRow()
    ensures Lookup("hard") == Some(DifficultyRow(200, 5, "Hard", "hard", 3))
  {
  }

  /**
   * Every row has a positive range and trial budget, and a larger range
   * always comes with strictly fewer trials and a larger multiplier.
   */
  lemma RowsOrdered(k1: string, k2: string)
    requires Lookup(k1).Some? && Lookup(k2).Some?
    ensures Lookup(k1).value.max >= 1 && Lookup(k1).value.trials >= 1
    ensures Lookup(k1).value.max < Lookup(k2).value.max ==>
              Lookup(k1).value.trials > Lookup(k2).value.trials
              && Lookup(k1).value.pointsMultiplier < Lookup(k2).value.pointsMultiplier
  {
  }
}
