/** The client's achievements store (client/src/stores/achievements.ts): the battle
    statistics, the achievements they unlock and the local leaderboard. Each achievement
    condition is "statistic at least threshold", which is what every condition string
    of the source says; unlocking times come from a `now` parameter. */
module Achievements {
  import opened Wrappers

  datatype Stat =
    | TotalWins | MaxWinStreak | TotalGoldEarned | TotalExpEarned | TotalPotionsUsed | WeaponsCollected | TotalBattles

  /** A condition such as `maxWinStreak >= 3`. */
  datatype Condition = AtLeast(stat: Stat, threshold: int)

  datatype Achievement = Achievement(id: string, name: string, condition: Condition, unlocked: bool, unlockedAt: Option<int>)

  datatype PlayerStats = PlayerStats(
    totalBattles: int,
    totalWins: int,
    currentWinStreak: int,
    maxWinStreak: int,
    totalGoldEarned: int,
    totalExpEarned: int,
    totalPotionsUsed: int,
    weaponsCollected: int)

  /** One leaderboard row. */
  datatype Entry = Entry(rank: int, name: string, maxWinStreak: int, totalGold: int)

  /** The whole store: achievements, statistics and leaderboard. */
  datatype Progress = Progress(achievements: seq<Achievement>, stats: PlayerStats, leaderboard: seq<Entry>)

  /** The ten achievements, all locked. */
  const DefaultAchievements: seq<Achievement> := [
    Achievement("first_victory", "初出茅庐", AtLeast(TotalWins, 1), false, None),
    Achievement("three_win_streak", "连胜小将", AtLeast(MaxWinStreak, 3), false, None),
    Achievement("five_win_streak", "连胜高手", AtLeast(MaxWinStreak, 5), false, None),
    Achievement("ten_win_streak", "连胜大师", AtLeast(MaxWinStreak, 10), false, None),
    Achievement("gold_collector", "金币收集家", AtLeast(TotalGoldEarned, 1000), false, None),
    Achievement("gold_millionaire", "金币大富翁", AtLeast(TotalGoldEarned, 5000), false, None),
    Achievement("weapon_collector", "武器收集家", AtLeast(WeaponsCollected, 4), false, None),
    Achievement("potion_master", "药剂大师", AtLeast(TotalPotionsUsed, 50), false, None),
    Achievement("battle_veteran", "战斗老兵", AtLeast(TotalBattles, 50), false, None),
    Achievement("exp_master", "经验大师", AtLeast(TotalExpEarned, 5000), false, None)]

  const ZeroStats: PlayerStats := PlayerStats(0, 0, 0, 0, 0, 0, 0, 0)

  /** The seeded leaderboard. */
  const DefaultLeaderboard: seq<Entry> := [
    Entry(1, "乐斗之王", 15, 8500),
    Entry(2, "连胜小王子", 12, 6200),
    Entry(3, "金币猎人", 8, 7800),
    Entry(4, "武器大师", 10, 5600),
    Entry(5, "菜菜企鹅", 3, 1200)]

  const DefaultProgress: Progress := Progress(DefaultAchievements, ZeroStats, DefaultLeaderboard)

  const LeaderboardSize: int := 10

  function StatValue(s: PlayerStats, stat: Stat): int
  {
    match stat
    case TotalWins => s.totalWins
    case MaxWinStreak => s.maxWinStreak
    case TotalGoldEarned => s.totalGoldEarned
    case TotalExpEarned => s.totalExpEarned
    case TotalPotionsUsed => s.totalPotionsUsed
    case WeaponsCollected => s.weaponsCollected
    case TotalBattles => s.totalBattles
  }

  /** evaluateCondition */
  predicate Met(c: Condition, s: PlayerStats)
  {
    StatValue(s, c.stat) >= c.threshold
  }

  /** One step of checkAchievements' forEach. */
  function CheckedOne(a: Achievement, s: PlayerStats, now: int): Achievement
  {
    if !a.unlocked && Met(a.condition, s) then a.(unlocked := true, unlockedAt := Some(now)) else a
  }

  /** checkAchievements over a whole list. */
  function Checked(list: seq<Achievement>, s: PlayerStats, now: int): (r: seq<Achievement>)
    ensures |r| == |list|
  {
    seq(|list|, i requires 0 <= i < |list| => CheckedOne(list[i], s, now))
  }

  /** Checking never locks an achievement, unlocks exactly the locked ones whose condition
      holds (stamping them with the time), and leaves the rest, identity and condition
      included, as they were. */
  lemma CheckUnlocksExactly(list: seq<Achievement>, s: PlayerStats, now: int)
    ensures var r := Checked(list, s, now);
            forall i :: 0 <= i < |list| ==>
              && (r[i].unlocked <==> list[i].unlocked || Met(list[i].condition, s))
              && (list[i].unlocked ==> r[i] == list[i])
              && (!list[i].unlocked && Met(list[i].condition, s) ==> r[i].unlockedAt == Some(now))
              && (!list[i].unlocked && !Met(list[i].condition, s) ==> r[i] == list[i])
              && r[i].id == list[i].id && r[i].condition == list[i].condition
  {
  }

  /** Checking twice with the same statistics is checking once, whatever the second
      time. */
  lemma CheckIdempotent(list: seq<Achievement>, s: PlayerStats, now: int, later: int)
    ensures Checked(Checked(list, s, now), s, later) == Checked(list, s, now)
  {
    var once := Checked(list, s, now);
    assert forall i :: 0 <= i < |list| ==> CheckedOne(once[i], s, later) == once[i];
  }

  /** Statistics that are everywhere at least as large meet every condition the smaller
      ones meet. */
  predicate Dominates(big: PlayerStats, small: PlayerStats)
  {
    forall stat :: StatValue(big, stat) >= StatValue(small, stat)
  }

  lemma MetMonotone(c: Condition, small: PlayerStats, big: PlayerStats)
    requires Dominates(big, small) && Met(c, small)
    ensures Met(c, big)
  {
    assert StatValue(big, c.stat) >= StatValue(small, c.stat);
  }

  /** recordVictory's updates, before the check. */
  function Victory(s: PlayerStats, goldEarned: int, expEarned: int): PlayerStats
  {
    var t := s.(
      totalBattles := s.totalBattles + 1,
      totalWins := s.totalWins + 1,
      currentWinStreak := s.currentWinStreak + 1,
      totalGoldEarned := s.totalGoldEarned + goldEarned,
      totalExpEarned := s.totalExpEarned + expEarned);
    if t.currentWinStreak > t.maxWinStreak then t.(maxWinStreak := t.currentWinStreak) else t
  }

  /** recordDefeat's updates. */
  function Defeat(s: PlayerStats): PlayerStats
  {
    s.(totalBattles := s.totalBattles + 1, currentWinStreak := 0)
  }

  /** recordPotionUsed's update. */
  function PotionUsed(s: PlayerStats): PlayerStats
  {
    s.(totalPotionsUsed := s.totalPotionsUsed + 1)
  }

  /** recordWeaponCollected's update: the count is set, not added. */
  function WeaponsCounted(s: PlayerStats, count: int): PlayerStats
  {
    s.(weaponsCollected := count)
  }

  /** The record operations on the whole store. */
  function VictoryRecorded(p: Progress, goldEarned: int, expEarned: int, now: int): Progress
  {
    var s := Victory(p.stats, goldEarned, expEarned);
    p.(stats := s, achievements := Checked(p.achievements, s, now))
  }

  function DefeatRecorded(p: Progress): Progress
  {
    p.(stats := Defeat(p.stats))
  }

  function PotionRecorded(p: Progress, now: int): Progress
  {
    var s := PotionUsed(p.stats);
    p.(stats := s, achievements := Checked(p.achievements, s, now))
  }

  function WeaponsRecorded(p: Progress, count: int, now: int): Progress
  {
    var s := WeaponsCounted(p.stats, count);
    p.(stats := s, achievements := Checked(p.achievements, s, now))
  }

  /** A victory adds one battle, one win and one streak step, adds the earnings, and
      keeps the best streak at least the current one. */
  lemma VictoryEffects(s: PlayerStats, goldEarned: int, expEarned: int)
    ensures var r := Victory(s, goldEarned, expEarned);
            && r.totalBattles == s.totalBattles + 1 && r.totalWins == s.totalWins + 1
            && r.currentWinStreak == s.currentWinStreak + 1
            && r.totalGoldEarned == s.totalGoldEarned + goldEarned && r.totalExpEarned == s.totalExpEarned + expEarned
            && r.maxWinStreak == Max(s.maxWinStreak, s.currentWinStreak + 1) && r.maxWinStreak >= r.currentWinStreak
            && r.totalPotionsUsed == s.totalPotionsUsed && r.weaponsCollected == s.weaponsCollected
  {
  }

  /** A defeat adds one battle, ends the streak, leaves every other statistic and every
      achievement alone: it does not run the check. */
  lemma DefeatEffects(p: Progress)
    ensures var r := DefeatRecorded(p);
            && r.stats == p.stats.(totalBattles := p.stats.totalBattles + 1, currentWinStreak := 0)
            && r.achievements == p.achievements && r.leaderboard == p.leaderboard
  {
  }

  /** Because a defeat does not run the check, a 50th battle lost leaves the veteran
      achievement locked although its condition holds. */
  lemma DefeatSkipsCheck()
    ensures var p := DefaultProgress.(stats := ZeroStats.(totalBattles := 49));
            var r := DefeatRecorded(p);
            Met(r.achievements[8].condition, r.stats) && !r.achievements[8].unlocked
  {
  }

  /** The order the statistics keep: the current streak is within the best one, which is
      within the wins, which are within the battles. */
  predicate StatsConsistent(s: PlayerStats)
  {
    0 <= s.currentWinStreak <= s.maxWinStreak <= s.totalWins <= s.totalBattles
  }

  lemma RecordsKeepStatsConsistent(s: PlayerStats, goldEarned: int, expEarned: int, count: int)
    requires StatsConsistent(s)
    ensures StatsConsistent(Victory(s, goldEarned, expEarned)) && StatsConsistent(Defeat(s))
    ensures StatsConsistent(PotionUsed(s)) && StatsConsistent(WeaponsCounted(s, count))
    ensures StatsConsistent(ZeroStats)
  {
  }

  /** With non-negative earnings a victory, and any potion, only raises statistics, so a
      later check keeps everything a check before it unlocked. */
  lemma VictoryOnlyRaises(s: PlayerStats, goldEarned: int, expEarned: int)
    requires goldEarned >= 0 && expEarned >= 0
    ensures Dominates(Victory(s, goldEarned, expEarned), s) && Dominates(PotionUsed(s), s)
  {
    var v := Victory(s, goldEarned, expEarned);
    forall stat
      ensures StatValue(v, stat) >= StatValue(s, stat)
    {
    }
  }

  /** An entry beats another on best streak, then on gold; equal keys beat nothing. */
  predicate Beats(a: Entry, b: Entry)
  {
    a.maxWinStreak > b.maxWinStreak || (a.maxWinStreak == b.maxWinStreak && a.totalGold > b.totalGold)
  }

  /** Best first: no entry beats one ahead of it. */
  predicate SortedDesc(board: seq<Entry>)
  {
    forall i, j :: 0 <= i < j < |board| ==> !Beats(board[j], board[i])
  }

  /** The index of the first entry the new one beats, if any. */
  function FirstBeaten(board: seq<Entry>, e: Entry): (r: Option<nat>)
    ensures r.Some? ==> r.value < |board| && Beats(e, board[r.value])
                        && forall k :: 0 <= k < r.value ==> !Beats(e, board[k])
    ensures r.None? ==> forall k :: 0 <= k < |board| ==> !Beats(e, board[k])
  {
    if board == [] then None
    else if Beats(e, board[0]) then Some(0)
    else
      match FirstBeaten(board[1..], e)
      case None => None
      case Some(k) => Some(k + 1)
  }

  /** The insertion of updateLeaderboard: before the first entry beaten, or at the end
      when none is beaten and the board has room, or not at all. */
  function Placed(board: seq<Entry>, e: Entry): seq<Entry>
  {
    match FirstBeaten(board, e)
    case Some(i) => board[..i] + [e] + board[i..]
    case None => if |board| < LeaderboardSize then board + [e] else board
  }

  /** Ranks 1, 2, ... in list order. */
  function Reranked(board: seq<Entry>): (r: seq<Entry>)
    ensures |r| == |board|
  {
    seq(|board|, i requires 0 <= i < |board| => board[i].(rank := i + 1))
  }

  function Truncated(board: seq<Entry>): seq<Entry>
  {
    if |board| > LeaderboardSize then board[..LeaderboardSize] else board
  }

  /** The row of the player with these statistics. */
  function PlayerEntry(s: PlayerStats, name: string): Entry
  {
    Entry(0, name, s.maxWinStreak, s.totalGoldEarned)
  }

  /** updateLeaderboard on the board. */
  function BoardUpdated(board: seq<Entry>, e: Entry): seq<Entry>
  {
    Truncated(Reranked(Placed(board, e)))
  }

  function LeaderboardUpdated(p: Progress, name: string): Progress
  {
    p.(leaderboard := BoardUpdated(p.leaderboard, PlayerEntry(p.stats, name)))
  }

  /** The board afterwards holds at most ten rows ranked 1..n in list order, each one the
      row at that place of the board with the player inserted. */
  lemma BoardShape(board: seq<Entry>, e: Entry)
    ensures var r := BoardUpdated(board, e);
            && |r| <= LeaderboardSize
            && |r| == Min(|Placed(board, e)|, LeaderboardSize)
            && forall k :: 0 <= k < |r| ==> r[k] == Placed(board, e)[k].(rank := k + 1)
  {
  }

  /** The player goes in ahead of the first row it strictly beats, behind every row it
      does not beat (ties included), and the existing rows keep their order; when it
      beats nothing it is appended only if the board has room. */
  lemma PlacementOrder(board: seq<Entry>, e: Entry)
    ensures FirstBeaten(board, e).Some? ==>
              var i := FirstBeaten(board, e).value;
              && Placed(board, e) == board[..i] + [e] + board[i..]
              && (forall k :: 0 <= k < i ==> !Beats(e, board[k]))
              && Beats(e, board[i])
    ensures FirstBeaten(board, e).None? ==>
              && (forall k :: 0 <= k < |board| ==> !Beats(e, board[k]))
              && Placed(board, e) == (if |board| < LeaderboardSize then board + [e] else board)
  {
  }

  /** A board sorted best first stays sorted. */
  lemma SortedStaysSorted(board: seq<Entry>, e: Entry)
    requires SortedDesc(board)
    ensures SortedDesc(Placed(board, e))
    ensures SortedDesc(BoardUpdated(board, e))
  {
    var placed := Placed(board, e);
    match FirstBeaten(board, e)
    case Some(i) =>
      forall a, b | 0 <= a < b < |placed|
        ensures !Beats(placed[b], placed[a])
      {
        if a < i && b == i {
          assert placed[b] == e && placed[a] == board[a];
        } else if a == i {
          assert placed[a] == e && placed[b] == board[b - 1];
          assert !Beats(board[b - 1], board[i]);
        } else if b < i {
          assert placed[a] == board[a] && placed[b] == board[b];
        } else {
          assert placed[b] == board[b - 1];
          assert placed[a] == if a < i then board[a] else board[a - 1];
        }
      }
    case None =>
      if |board| < LeaderboardSize {
        forall a, b | 0 <= a < b < |placed|
          ensures !Beats(placed[b], placed[a])
        {
          if b == |board| {
            assert placed[b] == e && placed[a] == board[a];
          } else {
            assert placed[a] == board[a] && placed[b] == board[b];
          }
        }
      }
    var r := BoardUpdated(board, e);
    forall a, b | 0 <= a < b < |r|
      ensures !Beats(r[b], r[a])
    {
      assert r[a] == placed[a].(rank := a + 1) && r[b] == placed[b].(rank := b + 1);
    }
  }

  /** The seeded board is not sorted (a streak of 8 ranks ahead of a streak of 10), so a
      player with a streak of 9 goes in third, ahead of the streak of 10. */
  lemma SeedBoardUnsorted()
    ensures !SortedDesc(DefaultLeaderboard)
    ensures var r := BoardUpdated(DefaultLeaderboard, Entry(0, "p", 9, 0));
            r[2].name == "p" && r[2].rank == 3 && r[3].name == "金币猎人" && r[4].maxWinStreak == 10
            && !SortedDesc(r)
  {
    var e := Entry(0, "p", 9, 0);
    assert !Beats(e, DefaultLeaderboard[0]) && !Beats(e, DefaultLeaderboard[1]) && Beats(e, DefaultLeaderboard[2]);
    assert FirstBeaten(DefaultLeaderboard, e) == Some(2);
    var r := BoardUpdated(DefaultLeaderboard, e);
    assert Beats(r[4], r[3]);
  }

  /** The store, whose achievement list, statistics and board the record operations
      update in place. */
  class Store {
    var achievements: seq<Achievement>
    var stats: PlayerStats
    var leaderboard: seq<Entry>

    function View(): Progress
      reads this
    {
      Progress(achievements, stats, leaderboard)
    }

    constructor()
      ensures View() == DefaultProgress
    {
      achievements := DefaultAchievements;
      stats := ZeroStats;
      leaderboard := DefaultLeaderboard;
    }

    /** checkAchievements: the forEach flips each locked achievement whose condition
        holds. */
    method CheckAchievements(now: int)
      modifies this`achievements
      ensures achievements == Checked(old(achievements), stats, now)
    {
      for i := 0 to |achievements|
        invariant |achievements| == |old(achievements)|
        invariant forall k :: 0 <= k < i ==> achievements[k] == CheckedOne(old(achievements)[k], stats, now)
        invariant forall k :: i <= k < |achievements| ==> achievements[k] == old(achievements)[k]
      {
        var a := achievements[i];
        if !a.unlocked {
          if StatValue(stats, a.condition.stat) >= a.condition.threshold {
            achievements := achievements[i := a.(unlocked := true, unlockedAt := Some(now))];
          }
        }
      }
    }

    method RecordVictory(goldEarned: int, expEarned: int, now: int)
      modifies this
      ensures View() == VictoryRecorded(old(View()), goldEarned, expEarned, now)
    {
      stats := stats.(totalBattles := stats.totalBattles + 1);
      stats := stats.(totalWins := stats.totalWins + 1);
      stats := stats.(currentWinStreak := stats.currentWinStreak + 1);
      stats := stats.(totalGoldEarned := stats.totalGoldEarned + goldEarned);
      stats := stats.(totalExpEarned := stats.totalExpEarned + expEarned);
      if stats.currentWinStreak > stats.maxWinStreak {
        stats := stats.(maxWinStreak := stats.currentWinStreak);
      }
      CheckAchievements(now);
    }

    method RecordDefeat()
      modifies this
      ensures View() == DefeatRecorded(old(View()))
    {
      stats := stats.(totalBattles := stats.totalBattles + 1);
      stats := stats.(currentWinStreak := 0);
    }

    method RecordPotionUsed(now: int)
      modifies this
      ensures View() == PotionRecorded(old(View()), now)
    {
      stats := stats.(totalPotionsUsed := stats.totalPotionsUsed + 1);
      CheckAchievements(now);
    }

    method RecordWeaponCollected(count: int, now: int)
      modifies this
      ensures View() == WeaponsRecorded(old(View()), count, now)
    {
      stats := stats.(weaponsCollected := count);
      CheckAchievements(now);
    }

    /** updateLeaderboard: the search loop with its splice, the append when nothing was
        beaten and there is room, the re-ranking loop, then the cut to ten. */
    method UpdateLeaderboard(name: string)
      modifies this`leaderboard
      ensures View() == LeaderboardUpdated(old(View()), name)
    {
      var entry := Entry(0, name, stats.maxWinStreak, stats.totalGoldEarned);
      var inserted := false;
      var i := 0;
      while i < |leaderboard|
        invariant 0 <= i <= |leaderboard| && leaderboard == old(leaderboard)
        invariant forall k :: 0 <= k < i ==> !Beats(entry, leaderboard[k])
      {
        if Beats(entry, leaderboard[i]) {
          assert FirstBeaten(leaderboard, entry) == Some(i);
          leaderboard := leaderboard[..i] + [entry] + leaderboard[i..];
          inserted := true;
          break;
        }
        i := i + 1;
      }
      if !inserted && |leaderboard| < LeaderboardSize {
        leaderboard := leaderboard + [entry];
      }
      ghost var placed := leaderboard;
      assert placed == Placed(old(leaderboard), entry);
      for k := 0 to |leaderboard|
        invariant |leaderboard| == |placed|
        invariant forall j :: 0 <= j < k ==> leaderboard[j] == placed[j].(rank := j + 1)
        invariant forall j :: k <= j < |leaderboard| ==> leaderboard[j] == placed[j]
      {
        leaderboard := leaderboard[k := leaderboard[k].(rank := k + 1)];
      }
      assert leaderboard == Reranked(placed);
      if |leaderboard| > LeaderboardSize {
        leaderboard := leaderboard[..LeaderboardSize];
      }
    }
  }
}
