/** How the game-level scorer relates to the projection scorer. */
module GameFacts {
  import opened Wrappers
  import opened Stats
  import opened Rounding
  import opened Plays
  import opened GameScorer
  import Scorers

  /** `s` carries the week's stats under the projection scorer's names. */
  predicate Corresponds(s: StatLine, st: GameStats) {
    && "completions" in s && s["completions"] == st.completions
    && "passing_yards" in s && s["passing_yards"] == st.passingYards
    && "passing_tds" in s && s["passing_tds"] == st.passingTds
    && "interceptions" in s && s["interceptions"] == st.interceptions
    && "sacks" in s && s["sacks"] == st.sacks
    && "rushing_attempts" in s && s["rushing_attempts"] == st.carries
    && "rushing_yards" in s && s["rushing_yards"] == st.rushingYards
    && "rushing_tds" in s && s["rushing_tds"] == st.rushingTds
    && "receptions" in s && s["receptions"] == st.receptions
    && "receiving_yards" in s && s["receiving_yards"] == st.receivingYards
    && "receiving_tds" in s && s["receiving_tds"] == st.receivingTds
    && "fumbles_lost" in s && s["fumbles_lost"] == st.fumblesLost
  }

  predicate NonNegative(st: GameStats) {
    && st.completions >= 0.0 && st.passingYards >= 0.0 && st.passingTds >= 0.0
    && st.interceptions >= 0.0 && st.sacks >= 0.0 && st.carries >= 0.0
    && st.rushingYards >= 0.0 && st.rushingTds >= 0.0 && st.receptions >= 0.0
    && st.receivingYards >= 0.0 && st.receivingTds >= 0.0 && st.fumblesLost >= 0.0
    && st.twoPointConversions >= 0.0
  }

  /** On non-negative stats without two-point conversions, the game score
      without its touchdown-length bonus, rounded, is the projection scorer's
      score for a QB; for any other position the projection scorer also charges
      -1 per sack, which the game scorer does not. */
  lemma ScorersAgreeExceptSacks(st: GameStats, s: StatLine, isQB: bool)
    requires NonNegative(st) && st.twoPointConversions == 0.0
    requires Corresponds(s, st)
    ensures Scorers.OffenseScore(s) ==
      Round1(GameLinear(st, isQB) + Scorers.PassingYardageBonus(st.passingYards)
             + Scorers.StackedYardageBonus(st.rushingYards) + Scorers.StackedYardageBonus(st.receivingYards)
             - (if isQB then 0.0 else st.sacks))
  {
  }

  /** The same relation stated of a scored week: the projection scorer on the
      week's stats is the game score less its touchdown-length bonus (and, for
      a non-QB, less the sacks), rounded. */
  lemma WeeklyScoreAgreesExceptTdBonus(weekly: seq<WeekRow>, pbp: seq<Play>, player: string, week: int,
                                       pbpFumbles: nat, o: WeekOutcome, s: StatLine)
    requires o == WeeklyScore(weekly, pbp, player, week, pbpFumbles)
    requires o.Scored? && NonNegative(o.stats) && o.stats.twoPointConversions == 0.0 && Corresponds(s, o.stats)
    ensures Scorers.OffenseScore(s) == Round1(o.score - o.tdBonus - (if o.isQB then 0.0 else o.stats.sacks))
  {
    OutcomeAgreesExceptTdBonus(o, s);
  }

  /** A scored outcome shaped like WeeklyScore's agrees with the projection
      scorer once its touchdown-length bonus is taken off. */
  lemma OutcomeAgreesExceptTdBonus(o: WeekOutcome, s: StatLine)
    requires o.Scored? && NonNegative(o.stats) && o.stats.twoPointConversions == 0.0 && Corresponds(s, o.stats)
    requires o.score == GameLinear(o.stats, o.isQB) + Scorers.PassingYardageBonus(o.stats.passingYards)
      + o.tdBonus + Scorers.StackedYardageBonus(o.stats.rushingYards) + Scorers.StackedYardageBonus(o.stats.receivingYards)
    ensures Scorers.OffenseScore(s) == Round1(o.score - o.tdBonus - (if o.isQB then 0.0 else o.stats.sacks))
  {
    ScorersAgreeExceptSacks(o.stats, s, o.isQB);
  }

  /** A non-QB week of 20 carries for 150 yards and a rushing touchdown of
      under 40 yards, plus 5 catches for 50 yards, scores
      4 + 15 + 6 + 5 + 5 + 5 = 40: the 100-yard rushing bonus applies, no
      touchdown length bonus does. */
  lemma RushingWeekExample(row: WeekRow, td: Play)
    requires row.position != Some("QB")
    requires Get(row.cells, "carries") == 20.0 && Get(row.cells, "rushing_yards") == 150.0
    requires Get(row.cells, "rushing_tds") == 1.0
    requires Get(row.cells, "receptions") == 5.0 && Get(row.cells, "receiving_yards") == 50.0
    requires Get(row.cells, "receiving_tds") == 0.0
    requires Get(row.cells, "completions") == 0.0 && Get(row.cells, "passing_yards") == 0.0
    requires Get(row.cells, "passing_tds") == 0.0 && Get(row.cells, "interceptions") == 0.0
    requires forall i :: 0 <= i < 4 ==> Get(row.cells, FumbleColumns[i]) == 0.0
    requires forall i :: 0 <= i < 3 ==> Get(row.cells, TwoPointColumns[i]) == 0.0
    requires td.touchdown && td.tdPlayer == Some(row.playerName) && td.week == row.week
    requires td.yardsGained < 40
    ensures WeeklyScore([row], [td], row.playerName, row.week, 0).Points() == 40.0
  {
    assert PlayerWeekRows([row], row.playerName, row.week) == [row] by {
      assert [row][1..] == [];
    }
    assert PlayerTds([td], row.playerName, row.week) == [td] by {
      assert [td][1..] == [];
    }
    assert TdBonusSum([td]) == 0.0 by {
      assert [td][1..] == [];
    }
    var st := ExtractStats([row], 0);
    assert st.twoPointConversions == 0.0 by {
      assert [row][1..] == [];
      assert Get(row.cells, TwoPointColumns[0]) == 0.0;
      assert Get(row.cells, TwoPointColumns[1]) == 0.0;
      assert Get(row.cells, TwoPointColumns[2]) == 0.0;
      assert TwoPointConversions([]) == 0.0;
      assert TwoPointConversions([row]) == RowTwoPoints(row) + TwoPointConversions([]);
    }
    assert st.fumblesLost == 0.0;
    assert GameLinear(st, false) == 35.0;
  }
}
