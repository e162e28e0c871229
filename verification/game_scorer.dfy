/**
 * The game-level scorer of saquon_scorer.py: one player's actual score for
 * one week, from the weekly stat rows and the play-by-play touchdowns.
 */
module GameScorer {
  import opened Wrappers
  import opened Stats
  import opened Plays
  import Scorers

  // ---------------------------------------------------------------------
  // Per-touchdown length bonus
  // ---------------------------------------------------------------------

  const Td40Bonus: real := 3.0
  const Td50Bonus: real := 5.0

  predicate IsRunOrPass(p: Play) {
    p.playType == "run" || p.playType == "pass"
  }

  /** Bonus for one touchdown: the 50+ bonus alone, or the 40-49 bonus, and only
      for plays typed 'run' or 'pass'. */
  function TdLengthBonus(p: Play): (b: real)
    ensures b == 5.0 <==> IsRunOrPass(p) && p.yardsGained >= 50
    ensures b == 3.0 <==> IsRunOrPass(p) && 40 <= p.yardsGained < 50
    ensures b == 0.0 <==> !IsRunOrPass(p) || p.yardsGained < 40
  {
    if p.playType == "run" then
      (if p.yardsGained >= 50 then Td50Bonus else if p.yardsGained >= 40 then Td40Bonus else 0.0)
    else if p.playType == "pass" then
      (if p.yardsGained >= 50 then Td50Bonus else if p.yardsGained >= 40 then Td40Bonus else 0.0)
    else 0.0
  }

  /** A touchdown that earned a bonus, as listed in the weekly breakdown. */
  datatype TdDetail = TdDetail(yards: int, playType: string, bonus: real)

  /** The per-week touchdown breakdown; `NoTds` is the source's empty dict. */
  datatype TdSummary = NoTds | TdSummary(week: int, tds: seq<TdDetail>, totalBonus: real)

  /** The player's touchdown plays in the given week. */
  function PlayerTds(pbp: seq<Play>, player: string, week: int): seq<Play> {
    Filter(pbp, (p: Play) => p.week == week && p.tdPlayer == Some(player) && p.touchdown)
  }

  /** Sum of the per-touchdown bonuses. */
  function TdBonusSum(tds: seq<Play>): real {
    if |tds| == 0 then 0.0 else TdLengthBonus(tds[0]) + TdBonusSum(tds[1..])
  }

  /** The touchdowns that earned a bonus, in play order. */
  function BonusDetails(tds: seq<Play>): (ds: seq<TdDetail>)
    ensures |ds| <= |tds|
    ensures forall i :: 0 <= i < |ds| ==> ds[i].bonus == 3.0 || ds[i].bonus == 5.0
  {
    if |tds| == 0 then []
    else
      var b := TdLengthBonus(tds[0]);
      var rest := BonusDetails(tds[1..]);
      if b > 0.0 then [TdDetail(tds[0].yardsGained, tds[0].playType, b)] + rest else rest
  }

  /** The breakdown of a split list is the breakdowns of its parts, in order. */
  lemma {:induction false} BonusDetailsAppend(a: seq<Play>, b: seq<Play>)
    ensures BonusDetails(a + b) == BonusDetails(a) + BonusDetails(b)
  {
    if |a| == 0 {
      assert a + b == b;
    } else {
      assert (a + b)[1..] == a[1..] + b;
      BonusDetailsAppend(a[1..], b);
    }
  }

  /** One touchdown is listed, with its yards, play type and bonus, exactly
      when it earns a bonus. */
  lemma BonusDetailsOfOne(t: Play)
    ensures BonusDetails([t]) ==
      if TdLengthBonus(t) > 0.0 then [TdDetail(t.yardsGained, t.playType, TdLengthBonus(t))] else []
  {
    assert [t][1..] == [];
  }

  /** Sum of the listed bonuses. */
  function DetailSum(ds: seq<TdDetail>): real {
    if |ds| == 0 then 0.0 else ds[0].bonus + DetailSum(ds[1..])
  }

  /** The listed details account for the whole bonus: touchdowns left out of the
      breakdown are exactly those worth nothing. */
  lemma {:induction false} DetailsAccountForBonus(tds: seq<Play>)
    ensures DetailSum(BonusDetails(tds)) == TdBonusSum(tds)
  {
    if |tds| > 0 {
      DetailsAccountForBonus(tds[1..]);
    }
  }

  /** The bonus is additive over touchdown lists. */
  lemma {:induction false} TdBonusSumAppend(a: seq<Play>, b: seq<Play>)
    ensures TdBonusSum(a + b) == TdBonusSum(a) + TdBonusSum(b)
  {
    if |a| == 0 {
      assert a + b == b;
    } else {
      assert (a + b)[1..] == a[1..] + b;
      TdBonusSumAppend(a[1..], b);
    }
  }

  /** `get_weekly_td_bonuses`: the per-touchdown bonuses of the player's week,
      summed, with the touchdowns that earned one. */
  function WeeklyTdBonuses(pbp: seq<Play>, player: string, week: int): (r: (real, TdSummary))
    ensures |PlayerTds(pbp, player, week)| == 0 ==> r == (0.0, NoTds)
    ensures |PlayerTds(pbp, player, week)| > 0 ==>
      r.1.TdSummary? && r.1.week == week && r.1.totalBonus == r.0
      && r.1.tds == BonusDetails(PlayerTds(pbp, player, week))
      && r.0 == DetailSum(r.1.tds)
  {
    var tds := PlayerTds(pbp, player, week);
    if |tds| == 0 then (0.0, NoTds)
    else
      DetailsAccountForBonus(tds);
      var total := TdBonusSum(tds);
      (total, TdSummary(week, BonusDetails(tds), total))
  }

  /** Two touchdowns of 45 and 55 yards earn 3 + 5 = 8, one at a time. */
  lemma TwoLongTouchdowns(p45: Play, p55: Play)
    requires p45.playType == "run" && p45.yardsGained == 45
    requires p55.playType == "pass" && p55.yardsGained == 55
    ensures TdBonusSum([p45, p55]) == 8.0
  {
    assert [p45, p55][1..] == [p55];
    assert [p55][1..] == [];
    assert TdBonusSum([p55]) == 5.0;
  }

  // ---------------------------------------------------------------------
  // Yardage bonuses
  // ---------------------------------------------------------------------

  /** `get_weekly_yardage_bonuses`: the rushing and receiving tiers, each stacking
      100+ and 200+, added independently. */
  function WeeklyYardageBonuses(rushingYards: real, receivingYards: real): (b: real)
    ensures b == Scorers.StackedYardageBonus(rushingYards) + Scorers.StackedYardageBonus(receivingYards)
    ensures 0.0 <= b <= 30.0
  {
    var rush := (if rushingYards >= 100.0 then 5.0 else 0.0) + (if rushingYards >= 200.0 then 10.0 else 0.0);
    var rec := (if receivingYards >= 100.0 then 5.0 else 0.0) + (if receivingYards >= 200.0 then 10.0 else 0.0);
    rush + rec
  }

  /** `get_weekly_passing_bonuses`: 5 at 400+, else 3 at 300+, else nothing. */
  function WeeklyPassingBonus(passingYards: real): (b: real)
    ensures b == Scorers.PassingYardageBonus(passingYards)
  {
    if passingYards >= 400.0 then 5.0
    else if passingYards >= 300.0 then 3.0
    else 0.0
  }

  // ---------------------------------------------------------------------
  // Weekly stat rows
  // ---------------------------------------------------------------------

  /** One row of the weekly stats table. A cell that is NaN, or a column the
      table lacks, is a key absent from `cells`; `position` is None when the
      table has no position column. */
  datatype WeekRow = WeekRow(playerName: string, week: int, position: Option<string>, cells: StatLine)

  /** The two-point-conversion columns. */
  const TwoPointColumns: seq<string> :=
    ["passing_2pt_conversions", "rushing_2pt_conversions", "receiving_2pt_conversions"]

  /** A row's two-point conversions, NaN read as 0. */
  function RowTwoPoints(row: WeekRow): real {
    Get(row.cells, TwoPointColumns[0]) + Get(row.cells, TwoPointColumns[1]) + Get(row.cells, TwoPointColumns[2])
  }

  /** `get_two_point_conversions`: summed over every row of the player-week
      (unlike the other stats, which read only the first row). */
  function TwoPointConversions(rows: seq<WeekRow>): (r: real)
    ensures (forall i, c :: 0 <= i < |rows| && c in rows[i].cells ==> rows[i].cells[c] >= 0.0) ==> r >= 0.0
  {
    if |rows| == 0 then 0.0 else RowTwoPoints(rows[0]) + TwoPointConversions(rows[1..])
  }

  /** The conversions of a player-week split in two are the sum of the
      conversions of the parts, so every row counts, not only the first. */
  lemma {:induction false} TwoPointConversionsAppend(rows1: seq<WeekRow>, rows2: seq<WeekRow>)
    ensures TwoPointConversions(rows1 + rows2) == TwoPointConversions(rows1) + TwoPointConversions(rows2)
  {
    if |rows1| > 0 {
      assert (rows1 + rows2)[1..] == rows1[1..] + rows2;
      TwoPointConversionsAppend(rows1[1..], rows2);
    } else {
      assert rows1 + rows2 == rows2;
    }
  }

  /** A single row's conversions are its three columns, NaN read as 0. */
  lemma TwoPointConversionsOfRow(row: WeekRow)
    ensures TwoPointConversions([row]) == Get(row.cells, "passing_2pt_conversions")
      + Get(row.cells, "rushing_2pt_conversions") + Get(row.cells, "receiving_2pt_conversions")
  {
    assert [row][1..] == [];
  }

  /** The columns that may report lost fumbles. */
  const FumbleColumns: seq<string> :=
    ["fumbles_lost", "rushing_fumbles_lost", "receiving_fumbles_lost", "sack_fumbles_lost"]

  /** A column's contribution to the fumble total: its value when positive. */
  function PositivePart(v: real): (r: real)
    ensures r >= 0.0 && r >= v
    ensures r == 0.0 <==> v <= 0.0
    ensures v > 0.0 ==> r == v
  {
    if v > 0.0 then v else 0.0
  }

  /** The positive values of the four fumble columns, added up. */
  function ColumnFumbles(row: WeekRow): real {
    PositivePart(Get(row.cells, FumbleColumns[0])) + PositivePart(Get(row.cells, FumbleColumns[1]))
    + PositivePart(Get(row.cells, FumbleColumns[2])) + PositivePart(Get(row.cells, FumbleColumns[3]))
  }

  /** Lost fumbles: the positive values of the four columns, replaced by the
      play-by-play count only when the columns give none. */
  function FumblesLost(row: WeekRow, pbpFumbles: nat): (r: real)
    ensures r >= 0.0
    ensures ColumnFumbles(row) > 0.0 ==> r == ColumnFumbles(row)
    ensures ColumnFumbles(row) == 0.0 ==> r == pbpFumbles as real
    ensures r == 0.0 <==> pbpFumbles == 0 && forall i :: 0 <= i < 4 ==> Get(row.cells, FumbleColumns[i]) <= 0.0
    ensures (exists i :: 0 <= i < 4 && Get(row.cells, FumbleColumns[i]) > 0.0) ==>
      forall i :: 0 <= i < 4 ==> r >= Get(row.cells, FumbleColumns[i])
  {
    var total := ColumnFumbles(row);
    if pbpFumbles > 0 && total == 0.0 then pbpFumbles as real else total
  }

  /** The stats one week is scored from. */
  datatype GameStats = GameStats(
    completions: real, passingYards: real, passingTds: real, interceptions: real, sacks: real,
    carries: real, rushingYards: real, rushingTds: real,
    receptions: real, receivingYards: real, receivingTds: real,
    fumblesLost: real, twoPointConversions: real)

  /** The player's rows for the week. */
  function PlayerWeekRows(weekly: seq<WeekRow>, player: string, week: int): seq<WeekRow> {
    Filter(weekly, (r: WeekRow) => r.playerName == player && r.week == week)
  }

  /** The basic stats read from the first row, the fumble total and the
      two-point conversions of all rows. */
  function ExtractStats(rows: seq<WeekRow>, pbpFumbles: nat): GameStats
    requires |rows| > 0
  {
    var c := rows[0].cells;
    GameStats(
      Get(c, "completions"), Get(c, "passing_yards"), Get(c, "passing_tds"), Get(c, "interceptions"), Get(c, "sacks"),
      Get(c, "carries"), Get(c, "rushing_yards"), Get(c, "rushing_tds"),
      Get(c, "receptions"), Get(c, "receiving_yards"), Get(c, "receiving_tds"),
      FumblesLost(rows[0], pbpFumbles), TwoPointConversions(rows))
  }

  /** A linear term that counts only when its stat is positive. */
  function Guarded(v: real, rate: real): (r: real)
    ensures v > 0.0 ==> r == v * rate
    ensures v <= 0.0 ==> r == 0.0
  {
    if v > 0.0 then v * rate else 0.0
  }

  /** The linear part of the weekly score; sacks count only for a QB. */
  function GameLinear(st: GameStats, isQB: bool): real {
    Guarded(st.completions, Scorers.CompletionRate)
    + Guarded(st.passingYards, Scorers.PassingYardRate)
    + Guarded(st.passingTds, Scorers.PassingTdRate)
    + Guarded(st.interceptions, Scorers.InterceptionRate)
    + (if isQB then Guarded(st.sacks, Scorers.SackRate) else 0.0)
    + Guarded(st.carries, Scorers.RushingAttemptRate)
    + Guarded(st.rushingYards, Scorers.RushingYardRate)
    + Guarded(st.rushingTds, Scorers.RushingTdRate)
    + Guarded(st.receptions, Scorers.ReceptionRate)
    + Guarded(st.receivingYards, Scorers.ReceivingYardRate)
    + Guarded(st.receivingTds, Scorers.ReceivingTdRate)
    + Guarded(st.twoPointConversions, 2.0)
    + Guarded(st.fumblesLost, Scorers.FumbleLostRate)
  }

  /** The result of scoring one player-week. */
  datatype WeekOutcome =
    | NoGame
    | Scored(score: real, stats: GameStats, isQB: bool, tdBonus: real, tdSummary: TdSummary, yardageBonus: real)
  {
    /** The score the source returns first: 0 when there is no row. */
    function Points(): real {
      if NoGame? then 0.0 else score
    }
  }

  /** `calculate_weekly_score`: linear terms, the passing bonus, the per-touchdown
      bonuses and the stacked yardage bonuses, not rounded. `pbpFumbles` is the
      play-by-play lost-fumble count for the player-week. */
  function WeeklyScore(weekly: seq<WeekRow>, pbp: seq<Play>, player: string, week: int, pbpFumbles: nat): (o: WeekOutcome)
    ensures |PlayerWeekRows(weekly, player, week)| == 0 <==> o.NoGame?
    ensures o.NoGame? ==> o.Points() == 0.0
    ensures o.Scored? ==>
      var rows := PlayerWeekRows(weekly, player, week);
      && o.stats == ExtractStats(rows, pbpFumbles)
      && o.isQB == (rows[0].position == Some("QB"))
      && o.tdBonus == TdBonusSum(PlayerTds(pbp, player, week))
      && o.score == GameLinear(o.stats, o.isQB) + Scorers.PassingYardageBonus(o.stats.passingYards)
                    + o.tdBonus + Scorers.StackedYardageBonus(o.stats.rushingYards)
                    + Scorers.StackedYardageBonus(o.stats.receivingYards)
  {
    var rows := PlayerWeekRows(weekly, player, week);
    if |rows| == 0 then NoGame
    else
      var st := ExtractStats(rows, pbpFumbles);
      var isQB := rows[0].position == Some("QB");
      var passBonus := if st.passingYards > 0.0 then WeeklyPassingBonus(st.passingYards) else 0.0;
      var (td, summary) := WeeklyTdBonuses(pbp, player, week);
      var yardage := WeeklyYardageBonuses(st.rushingYards, st.receivingYards);
      var score := GameLinear(st, isQB) + passBonus + td + yardage;
      Scored(score, st, isQB, td, summary, yardage)
  }
}
