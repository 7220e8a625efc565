/**
 * Unlocking achievements: one pass over the table that collects every entry
 * whose condition holds and that is not stored yet, appends them to the
 * stored list and reports them; and the progress summary.
 */
module AchievementSystem {
  import opened Storage
  import opened Achievements

  /** `list.find(a => a.id === id)` finds something. */
  predicate HasId(list: seq<StoredAchievement>, id: string) {
    exists k :: 0 <= k < |list| && list[k].id == id
  }

  /** No two stored entries share an id. */
  predicate DistinctStored(list: seq<StoredAchievement>) {
    forall i, j :: 0 <= i < j < |list| ==> list[i].id != list[j].id
  }

  /** Every stored id is the id of some table entry. */
  predicate AllFromTable(list: seq<StoredAchievement>, table: seq<Achievement>) {
    forall k :: 0 <= k < |list| ==> exists a :: a in table && a.id == list[k].id
  }

  /** `{ ...achievement, unlockedAt }`: the condition closure is not part of the stored copy. */
  function Unlock(a: Achievement, now: string): StoredAchievement {
    StoredAchievement(a.id, a.title, a.description, a.category, now)
  }

  /** Whether the loop body unlocks `a`. */
  predicate Unlockable(a: Achievement, stored: seq<StoredAchievement>, stats: UserStats) {
    !HasId(stored, a.id) && Holds(a.condition, stats)
  }

  /** What the loop of `checkAchievements` has collected after the entries of `table`. */
  function NewlyUnlocked(table: seq<Achievement>, stored: seq<StoredAchievement>, stats: UserStats, now: string): seq<StoredAchievement>
  {
    if table == [] then []
    else
      var prior := NewlyUnlocked(table[..|table| - 1], stored, stats, now);
      var a := table[|table| - 1];
      if Unlockable(a, stored, stats) then prior + [Unlock(a, now)] else prior
  }

  /**
   * `checkAchievements(stats)` on a store, the clock reading given as the ISO
   * timestamp `now`. The store is written only when something was unlocked,
   * and then the new entries are appended to the old list in table order.
   */
  method CheckAchievements(stats: UserStats, store: Store, now: string) returns (newly: seq<StoredAchievement>, store': Store)
    ensures newly == NewlyUnlocked(ACHIEVEMENTS, GetAchievements(store), stats, now)
    ensures store' == if |newly| > 0 then SaveAchievements(store, GetAchievements(store) + newly) else store
  {
    var unlocked := GetAchievements(store);
    newly := CollectUnlocked(ACHIEVEMENTS, unlocked, stats, now);
    if |newly| > 0 {
      store' := SaveAchievements(store, unlocked + newly);
    } else {
      store' := store;
    }
  }

  /** The loop of `checkAchievements`: each entry of `table` in turn, pushed when unlockable. */
  method CollectUnlocked(table: seq<Achievement>, unlocked: seq<StoredAchievement>, stats: UserStats, now: string)
    returns (newly: seq<StoredAchievement>)
    ensures newly == NewlyUnlocked(table, unlocked, stats, now)
  {
    newly := [];
    for i := 0 to |table|
      invariant newly == NewlyUnlocked(table[..i], unlocked, stats, now)
    {
      var achievement := table[i];
      var alreadyUnlocked := HasId(unlocked, achievement.id);
      if !alreadyUnlocked && Holds(achievement.condition, stats) {
        newly := newly + [Unlock(achievement, now)];
      }
      assert table[..i + 1][..i] == table[..i];
    }
    assert table[..|table|] == table;
  }

  /** The store after `checkAchievements(stats)`: the new entries appended, or no write at all. */
  function StoreAfterCheck(store: Store, stats: UserStats, now: string): Store {
    var newly := NewlyUnlocked(ACHIEVEMENTS, GetAchievements(store), stats, now);
    if |newly| > 0 then SaveAchievements(store, GetAchievements(store) + newly) else store
  }

  lemma HasIdAppend(a: seq<StoredAchievement>, b: seq<StoredAchievement>, id: string)
    ensures HasId(a + b, id) <==> HasId(a, id) || HasId(b, id)
  {
    if HasId(a + b, id) {
      var k :| 0 <= k < |a + b| && (a + b)[k].id == id;
      if k >= |a| {
        assert b[k - |a|].id == id;
      }
    }
    if HasId(a, id) {
      var k :| 0 <= k < |a| && a[k].id == id;
      assert (a + b)[k].id == id;
    }
    if HasId(b, id) {
      var k :| 0 <= k < |b| && b[k].id == id;
      assert (a + b)[|a| + k].id == id;
    }
  }

  /**
   * An id is reported exactly when some entry of the table with that id is
   * unlockable: absent from the stored list and its condition holds. Every
   * reported entry carries the timestamp of this call.
   */
  lemma {:induction false} NewlyUnlockedExactly(table: seq<Achievement>, stored: seq<StoredAchievement>, stats: UserStats, now: string, id: string)
    ensures HasId(NewlyUnlocked(table, stored, stats, now), id) <==>
              exists a :: a in table && a.id == id && Unlockable(a, stored, stats)
    ensures forall u :: u in NewlyUnlocked(table, stored, stats, now) ==>
              u.unlockedAt == now && exists a :: a in table && u == Unlock(a, now) && Unlockable(a, stored, stats)
  {
    if table != [] {
      var front, a := table[..|table| - 1], table[|table| - 1];
      assert table == front + [a];
      NewlyUnlockedExactly(front, stored, stats, now, id);
      var prior := NewlyUnlocked(front, stored, stats, now);
      if Unlockable(a, stored, stats) {
        HasIdAppend(prior, [Unlock(a, now)], id);
        assert [Unlock(a, now)][0].id == a.id;
      }
    }
  }

  /** The loop keeps the table's order and reports each entry at most once. */
  lemma {:induction false} NewlyUnlockedOrder(table: seq<Achievement>, stored: seq<StoredAchievement>, stats: UserStats, now: string)
    requires DistinctIds(table)
    ensures |NewlyUnlocked(table, stored, stats, now)| <= |table|
    ensures DistinctStored(NewlyUnlocked(table, stored, stats, now))
  {
    if table != [] {
      var front, a := table[..|table| - 1], table[|table| - 1];
      assert DistinctIds(front);
      NewlyUnlockedOrder(front, stored, stats, now);
      var prior := NewlyUnlocked(front, stored, stats, now);
      if Unlockable(a, stored, stats) {
        forall k | 0 <= k < |prior|
          ensures prior[k].id != a.id
        {
          NewlyUnlockedExactly(front, stored, stats, now, prior[k].id);
          assert HasId(prior, prior[k].id);
          var b :| b in front && b.id == prior[k].id && Unlockable(b, stored, stats);
          var j :| 0 <= j < |front| && front[j] == b;
          assert table[j] == b;
        }
      }
    }
  }

  /** Nothing is reported when every entry whose condition holds is already stored. */
  lemma {:induction false} NothingNew(table: seq<Achievement>, stored: seq<StoredAchievement>, stats: UserStats, now: string)
    requires forall a :: a in table ==> !Unlockable(a, stored, stats)
    ensures NewlyUnlocked(table, stored, stats, now) == []
  {
    if table != [] {
      NothingNew(table[..|table| - 1], stored, stats, now);
      assert table[|table| - 1] in table;
    }
  }

  /**
   * Checking twice with the same statistics unlocks nothing the second time:
   * whatever the first call reported is stored after it.
   */
  lemma CheckTwice(table: seq<Achievement>, stored: seq<StoredAchievement>, stats: UserStats, now1: string, now2: string)
    ensures NewlyUnlocked(table, stored + NewlyUnlocked(table, stored, stats, now1), stats, now2) == []
  {
    var first := NewlyUnlocked(table, stored, stats, now1);
    forall a | a in table
      ensures !Unlockable(a, stored + first, stats)
    {
      HasIdAppend(stored, first, a.id);
      NewlyUnlockedExactly(table, stored, stats, now1, a.id);
    }
    NothingNew(table, stored + first, stats, now2);
  }

  /**
   * The stored list stays free of duplicates and holds only table ids: the
   * appended entries are table entries whose ids were not stored yet.
   */
  lemma StoredInvariantPreserved(table: seq<Achievement>, stored: seq<StoredAchievement>, stats: UserStats, now: string)
    requires DistinctIds(table)
    requires DistinctStored(stored) && AllFromTable(stored, table)
    ensures DistinctStored(stored + NewlyUnlocked(table, stored, stats, now))
    ensures AllFromTable(stored + NewlyUnlocked(table, stored, stats, now), table)
  {
    var newly := NewlyUnlocked(table, stored, stats, now);
    var all := stored + newly;
    NewlyUnlockedOrder(table, stored, stats, now);
    forall k | |stored| <= k < |all|
      ensures (exists a :: a in table && a.id == all[k].id) && !HasId(stored, all[k].id)
    {
      assert all[k] == newly[k - |stored|] && all[k] in newly;
      NewlyUnlockedExactly(table, stored, stats, now, all[k].id);
    }
    forall i, j | 0 <= i < j < |all|
      ensures all[i].id != all[j].id
    {
      if j >= |stored| && i < |stored| {
        assert stored[i].id == all[i].id;
      } else if i >= |stored| {
        assert all[i] == newly[i - |stored|] && all[j] == newly[j - |stored|];
      }
    }
  }

  /** The summary of `getProgress`. */
  datatype Progress = Progress(total: int, unlocked: int, percentage: int)

  /** `Math.round` on an exact real: the floor of `x + 1/2`. */
  function Round(x: real): int {
    (x + 0.5).Floor
  }

  /** `getProgress()` on a store; the percentage is computed on exact reals. */
  function GetProgress(store: Store): Progress {
    var total := |ACHIEVEMENTS|;
    var count := |GetAchievements(store)|;
    Progress(total, count, Round((count as real / total as real) * 100.0))
  }

  /** There are 25 achievements in all, so each unlocked one is worth 4 percent. */
  lemma ProgressIsFourPercentEach(store: Store)
    ensures GetProgress(store).total == 25
    ensures GetProgress(store).unlocked == |GetAchievements(store)|
    ensures GetProgress(store).percentage == 4 * |GetAchievements(store)|
  {
    var count := |GetAchievements(store)|;
    assert (count as real / 25.0) * 100.0 == (4 * count) as real;
  }

  /** The set of ids of a stored list. */
  function StoredIds(list: seq<StoredAchievement>): set<string> {
    set k | 0 <= k < |list| :: list[k].id
  }

  /** The set of ids of a table. */
  function TableIds(table: seq<Achievement>): set<string> {
    set k | 0 <= k < |table| :: table[k].id
  }

  lemma {:induction false} DistinctStoredCount(list: seq<StoredAchievement>)
    requires DistinctStored(list)
    ensures |StoredIds(list)| == |list|
  {
    if list != [] {
      var front := list[..|list| - 1];
      DistinctStoredCount(front);
      assert StoredIds(list) == StoredIds(front) + {list[|list| - 1].id};
      assert list[|list| - 1].id !in StoredIds(front);
    }
  }

  lemma {:induction false} TableIdsCount(table: seq<Achievement>)
    ensures |TableIds(table)| <= |table|
  {
    if table != [] {
      var front := table[..|table| - 1];
      TableIdsCount(front);
      assert TableIds(table) == TableIds(front) + {table[|table| - 1].id};
    }
  }

  lemma SubsetCount(a: set<string>, b: set<string>)
    requires a <= b
    ensures |a| <= |b|
  {
    assert b == a + (b - a);
  }

  /** A duplicate-free list of table ids is no longer than the table. */
  lemma StoredWithinTable(list: seq<StoredAchievement>, table: seq<Achievement>)
    requires DistinctStored(list) && AllFromTable(list, table)
    ensures |list| <= |table|
  {
    DistinctStoredCount(list);
    TableIdsCount(table);
    forall id | id in StoredIds(list)
      ensures id in TableIds(table)
    {
      var k :| 0 <= k < |list| && list[k].id == id;
      var a :| a in table && a.id == list[k].id;
      var j :| 0 <= j < |table| && table[j] == a;
    }
    SubsetCount(StoredIds(list), TableIds(table));
  }

  /**
   * While the stored list holds distinct table ids, which checking
   * achievements preserves, progress never passes 25 unlocked or 100 percent.
   */
  lemma ProgressBounded(store: Store)
    requires DistinctStored(GetAchievements(store)) && AllFromTable(GetAchievements(store), ACHIEVEMENTS)
    ensures 0 <= GetProgress(store).unlocked <= GetProgress(store).total
    ensures 0 <= GetProgress(store).percentage <= 100
  {
    StoredWithinTable(GetAchievements(store), ACHIEVEMENTS);
    ProgressIsFourPercentEach(store);
  }
}
