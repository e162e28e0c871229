/**
 * The season touchdown-bonus counter of get_nfl_data.py, which stacks the
 * 40+ and 50+ bonuses, set against the per-touchdown rule of the game scorer.
 */
module TdBonusCounter {
  import opened Wrappers
  import opened Plays
  import GameScorer

  /** The counter's result for one player. */
  datatype TdBonusCounts = TdBonusCounts(player: string, totalTds: nat, tds40Plus: nat, tds50Plus: nat, bonusPoints: int)

  /** All the player's touchdown plays. */
  function SeasonTds(pbp: seq<Play>, player: string): seq<Play> {
    Filter(pbp, (p: Play) => p.tdPlayer == Some(player) && p.touchdown)
  }

  function Count40Plus(tds: seq<Play>): nat {
    Count(tds, (p: Play) => p.yardsGained >= 40)
  }

  function Count50Plus(tds: seq<Play>): nat {
    Count(tds, (p: Play) => p.yardsGained >= 50)
  }

  /** `get_player_td_bonuses`: None without touchdowns, else the counts and
      3 per 40+ touchdown plus 5 per 50+ touchdown (a 50+ touchdown is in both). */
  function PlayerTdBonuses(pbp: seq<Play>, player: string): (r: Option<TdBonusCounts>)
    ensures r.None? <==> forall i :: 0 <= i < |pbp| ==> pbp[i].tdPlayer != Some(player) || !pbp[i].touchdown
    ensures r.Some? ==>
      && r.value.player == player
      && r.value.totalTds == |SeasonTds(pbp, player)|
      && r.value.tds40Plus == Count40Plus(SeasonTds(pbp, player))
      && r.value.tds50Plus == Count50Plus(SeasonTds(pbp, player))
      && r.value.tds50Plus <= r.value.tds40Plus <= r.value.totalTds
      && r.value.bonusPoints == 3 * r.value.tds40Plus + 5 * r.value.tds50Plus
  {
    var tds := SeasonTds(pbp, player);
    if |tds| == 0 then None
    else
      CountMono(tds, (p: Play) => p.yardsGained >= 50, (p: Play) => p.yardsGained >= 40);
      CountMono(tds, (p: Play) => p.yardsGained >= 40, (p: Play) => true);
      assert Count(tds, (p: Play) => true) == |tds| by {
        assert Filter(tds, (p: Play) => true) == tds by { FilterAll(tds); }
      }
      var c40, c50 := Count40Plus(tds), Count50Plus(tds);
      Some(TdBonusCounts(player, |tds|, c40, c50, c40 * 3 + c50 * 5))
  }

  /** Filtering with an always-true condition keeps everything. */
  lemma {:induction false} FilterAll(s: seq<Play>)
    ensures Filter(s, (p: Play) => true) == s
  {
    if |s| > 0 {
      FilterAll(s[1..]);
    }
  }

  /** The stacking counter awards 3 more than the per-touchdown rule for every
      50+ touchdown, and the same for every other run or pass touchdown. */
  lemma {:induction false} StackingExceedsPerTd(tds: seq<Play>)
    requires forall i :: 0 <= i < |tds| ==> GameScorer.IsRunOrPass(tds[i])
    ensures (3 * Count40Plus(tds) + 5 * Count50Plus(tds)) as real
      == GameScorer.TdBonusSum(tds) + 3.0 * Count50Plus(tds) as real
  {
    if |tds| > 0 {
      StackingExceedsPerTd(tds[1..]);
    }
  }

  /** For a player whose touchdowns are all runs or passes, the counter's
      bonus is the per-touchdown bonus plus 3 for every 50+ touchdown. */
  lemma CounterExceedsPerTd(pbp: seq<Play>, player: string)
    requires PlayerTdBonuses(pbp, player).Some?
    requires forall i :: 0 <= i < |SeasonTds(pbp, player)| ==> GameScorer.IsRunOrPass(SeasonTds(pbp, player)[i])
    ensures PlayerTdBonuses(pbp, player).value.bonusPoints as real
      == GameScorer.TdBonusSum(SeasonTds(pbp, player)) + 3.0 * PlayerTdBonuses(pbp, player).value.tds50Plus as real
  {
    StackingExceedsPerTd(SeasonTds(pbp, player));
  }

  /** A player whose season is one 55-yard rushing touchdown lands in both
      counters and gets 8 points, where the per-touchdown rule gives 5. */
  lemma LongTouchdownContrast(p: Play, player: string)
    requires p.playType == "run" && p.yardsGained == 55
    requires p.touchdown && p.tdPlayer == Some(player)
    ensures PlayerTdBonuses([p], player) == Some(TdBonusCounts(player, 1, 1, 1, 8))
    ensures GameScorer.TdBonusSum(SeasonTds([p], player)) == 5.0
  {
    assert SeasonTds([p], player) == [p];
  }
}
