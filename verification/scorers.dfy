/**
 * The three projection scorers (`FinalLeagueScorer`, `KickerScorer` and
 * `DefenseScorer` of fantasy_projections.py): stat dictionary in, points
 * rounded to one decimal out.
 */
module Scorers {
  import opened Stats
  import opened Rounding
  import opened Wrappers

  // ---------------------------------------------------------------------
  // Offensive scoring rules
  // ---------------------------------------------------------------------

  const CompletionRate: real := 1.0
  const PassingYardRate: real := 1.0 / 25.0
  const PassingTdRate: real := 4.0
  const InterceptionRate: real := -2.0
  const SackRate: real := -1.0
  const Passing300Bonus: real := 3.0
  const Passing400Bonus: real := 5.0
  const RushingAttemptRate: real := 0.2
  const RushingYardRate: real := 1.0 / 10.0
  const RushingTdRate: real := 6.0
  const ReceptionRate: real := 1.0
  const ReceivingYardRate: real := 1.0 / 10.0
  const ReceivingTdRate: real := 6.0
  const Yardage100Bonus: real := 5.0
  const Yardage200Bonus: real := 10.0
  const FumbleLostRate: real := -2.0

  /** The linear rules the offensive projection scorer applies, in its order. */
  const OffenseRates: seq<Rate> := [
    Rate("completions", CompletionRate),
    Rate("passing_yards", PassingYardRate),
    Rate("passing_tds", PassingTdRate),
    Rate("interceptions", InterceptionRate),
    Rate("sacks", SackRate),
    Rate("rushing_attempts", RushingAttemptRate),
    Rate("rushing_yards", RushingYardRate),
    Rate("rushing_tds", RushingTdRate),
    Rate("receptions", ReceptionRate),
    Rate("receiving_yards", ReceivingYardRate),
    Rate("receiving_tds", ReceivingTdRate),
    Rate("fumbles_lost", FumbleLostRate)
  ]

  /** Passing yardage bonus: one tier only, the 400+ tier replacing the 300-399 tier. */
  function PassingYardageBonus(yards: real): (b: real)
    ensures b == 5.0 <==> yards >= 400.0
    ensures b == 3.0 <==> 300.0 <= yards < 400.0
    ensures b == 0.0 <==> yards < 300.0
  {
    if yards >= 400.0 then Passing400Bonus
    else if yards >= 300.0 then Passing300Bonus
    else 0.0
  }

  /** Rushing or receiving yardage bonus: the 100+ and 200+ tiers stack. */
  function StackedYardageBonus(yards: real): (b: real)
    ensures yards < 100.0 ==> b == 0.0
    ensures 100.0 <= yards < 200.0 ==> b == 5.0
    ensures yards >= 200.0 ==> b == 15.0
  {
    var tier1 := if yards >= 100.0 then Yardage100Bonus else 0.0;
    var tier2 := if yards >= 200.0 then Yardage200Bonus else 0.0;
    tier1 + tier2
  }

  /** All yardage bonuses of a stat line; an absent yardage key earns none. */
  function YardageBonuses(s: StatLine): real {
    (if "passing_yards" in s then PassingYardageBonus(s["passing_yards"]) else 0.0)
    + (if "rushing_yards" in s then StackedYardageBonus(s["rushing_yards"]) else 0.0)
    + (if "receiving_yards" in s then StackedYardageBonus(s["receiving_yards"]) else 0.0)
  }

  /** `FinalLeagueScorer.calculate_projected_score`: each present stat times its
      rate, plus the yardage bonuses, rounded to one decimal. */
  function OffenseScore(s: StatLine): (r: real)
    ensures r == Round1(LinearPoints(OffenseRates, s) + YardageBonuses(s))
  {
    var passing :=
      Term(s, Rate("completions", CompletionRate))
      + (if "passing_yards" in s
         then s["passing_yards"] * PassingYardRate + PassingYardageBonus(s["passing_yards"])
         else 0.0)
      + Term(s, Rate("passing_tds", PassingTdRate))
      + Term(s, Rate("interceptions", InterceptionRate))
      + Term(s, Rate("sacks", SackRate));
    var rushing :=
      Term(s, Rate("rushing_attempts", RushingAttemptRate))
      + (if "rushing_yards" in s
         then s["rushing_yards"] * RushingYardRate + StackedYardageBonus(s["rushing_yards"])
         else 0.0)
      + Term(s, Rate("rushing_tds", RushingTdRate));
    var receiving :=
      Term(s, Rate("receptions", ReceptionRate))
      + (if "receiving_yards" in s
         then s["receiving_yards"] * ReceivingYardRate + StackedYardageBonus(s["receiving_yards"])
         else 0.0)
      + Term(s, Rate("receiving_tds", ReceivingTdRate));
    var other := Term(s, Rate("fumbles_lost", FumbleLostRate));
    YardsTerm(s, "passing_yards", PassingYardRate, PassingYardageBonus);
    YardsTerm(s, "rushing_yards", RushingYardRate, StackedYardageBonus);
    YardsTerm(s, "receiving_yards", ReceivingYardRate, StackedYardageBonus);
    OffenseLinearUnfold(s);
    Round1(passing + rushing + receiving + other)
  }

  /** A yardage stat's points split into its linear term and its bonus. */
  lemma YardsTerm(s: StatLine, key: string, rate: real, bonus: real -> real)
    ensures (if key in s then s[key] * rate + bonus(s[key]) else 0.0)
      == Term(s, Rate(key, rate)) + (if key in s then bonus(s[key]) else 0.0)
  {
  }

  /** The offensive rate table, term by term. */
  lemma OffenseLinearUnfold(s: StatLine)
    ensures LinearPoints(OffenseRates, s) ==
      Term(s, Rate("completions", CompletionRate)) + Term(s, Rate("passing_yards", PassingYardRate))
      + Term(s, Rate("passing_tds", PassingTdRate)) + Term(s, Rate("interceptions", InterceptionRate))
      + Term(s, Rate("sacks", SackRate)) + Term(s, Rate("rushing_attempts", RushingAttemptRate))
      + Term(s, Rate("rushing_yards", RushingYardRate)) + Term(s, Rate("rushing_tds", RushingTdRate))
      + Term(s, Rate("receptions", ReceptionRate)) + Term(s, Rate("receiving_yards", ReceivingYardRate))
      + Term(s, Rate("receiving_tds", ReceivingTdRate)) + Term(s, Rate("fumbles_lost", FumbleLostRate))
  {
    Linear12(OffenseRates, s);
  }

  /** Any twelve-rule table, term by term. */
  lemma Linear12(rs: seq<Rate>, s: StatLine)
    requires |rs| == 12
    ensures LinearPoints(rs, s) ==
      Term(s, rs[0]) + Term(s, rs[1]) + Term(s, rs[2]) + Term(s, rs[3])
      + Term(s, rs[4]) + Term(s, rs[5]) + Term(s, rs[6]) + Term(s, rs[7])
      + Term(s, rs[8]) + Term(s, rs[9]) + Term(s, rs[10]) + Term(s, rs[11])
  {
    var a, b, c := rs[..4], rs[4..8], rs[8..];
    assert rs == a + b + c;
    LinearAppend(a + b, c, s);
    LinearAppend(a, b, s);
    Linear4(a, s);
    Linear4(b, s);
    Linear4(c, s);
  }

  // ---------------------------------------------------------------------
  // Kicker scoring rules
  // ---------------------------------------------------------------------

  const PatRate: real := 1.0
  const ShortFgRate: real := 3.0
  const LongFgRate: real := 5.0
  /** The blended points per field goal used when no distance breakdown is given. */
  const FlatFgRate: real := 3.2

  /** The four sub-50-yard distance bands, each worth the short rate. */
  const ShortFgKeys: seq<string> := ["fg_0_19", "fg_20_29", "fg_30_39", "fg_40_49"]

  /** Field-goal points from the per-band counts that are present. */
  function BandedFgPoints(s: StatLine): real {
    Get(s, "fg_0_19") * ShortFgRate + Get(s, "fg_20_29") * ShortFgRate
    + Get(s, "fg_30_39") * ShortFgRate + Get(s, "fg_40_49") * ShortFgRate
    + Get(s, "fg_50plus") * LongFgRate
  }

  /** True when any distance band is reported. */
  predicate HasFgBreakdown(s: StatLine) {
    "fg_0_19" in s || "fg_20_29" in s || "fg_30_39" in s || "fg_40_49" in s || "fg_50plus" in s
  }

  /** `KickerScorer.calculate_projected_score` as written: PATs, the banded field
      goals, and the flat 3.2 per total field goal whenever `fg` is present and
      `fg_0_19` is not, even if other bands were reported. */
  function KickerScore(s: StatLine): (r: real)
    ensures ("fg" !in s || "fg_0_19" in s) ==>
      r == Round1(Get(s, "pat") + 3.0 * (Get(s, "fg_0_19") + Get(s, "fg_20_29") + Get(s, "fg_30_39") + Get(s, "fg_40_49")) + 5.0 * Get(s, "fg_50plus"))
    ensures "fg" in s && !HasFgBreakdown(s) ==> r == Round1(Get(s, "pat") + 3.2 * s["fg"])
    ensures "fg" in s && "fg_0_19" !in s ==> r == Round1(Get(s, "pat") + BandedFgPoints(s) + 3.2 * s["fg"])
  {
    var score := Term(s, Rate("pat", PatRate))
      + Term(s, Rate("fg_0_19", ShortFgRate)) + Term(s, Rate("fg_20_29", ShortFgRate))
      + Term(s, Rate("fg_30_39", ShortFgRate)) + Term(s, Rate("fg_40_49", ShortFgRate))
      + Term(s, Rate("fg_50plus", LongFgRate));
    assert score == Get(s, "pat") + BandedFgPoints(s) by {
      TermGet(s, Rate("pat", PatRate));
      TermGet(s, Rate("fg_0_19", ShortFgRate));
      TermGet(s, Rate("fg_20_29", ShortFgRate));
      TermGet(s, Rate("fg_30_39", ShortFgRate));
      TermGet(s, Rate("fg_40_49", ShortFgRate));
      TermGet(s, Rate("fg_50plus", LongFgRate));
    }
    var flat := if "fg" in s && "fg_0_19" !in s then s["fg"] * FlatFgRate else 0.0;
    Round1(score + flat)
  }

  /** Counterexample to the "only total FG" guard: one 20-29 and one 30-39 yard
      field goal reported together with the total of 2 are scored 6 + 6.4. */
  lemma KickerDoubleCount()
    ensures var s := map["fg" := 2.0, "fg_20_29" := 1.0, "fg_30_39" := 1.0];
      BandedFgPoints(s) == 6.0 && KickerScore(s) == 12.4
  {
  }

  /** The kicker scorer with the guard the comment describes: the flat rate is
      used only when the total is the sole field-goal information. */
  function KickerScoreIntended(s: StatLine): (r: real)
    ensures HasFgBreakdown(s) ==> r == Round1(Get(s, "pat") + BandedFgPoints(s))
    ensures !HasFgBreakdown(s) ==> r == Round1(Get(s, "pat") + 3.2 * Get(s, "fg"))
  {
    var flat := if "fg" in s && !HasFgBreakdown(s) then s["fg"] * FlatFgRate else 0.0;
    Round1(Term(s, Rate("pat", PatRate)) + BandedFgPoints(s) + flat)
  }

  /** The written and the intended kicker scorers agree except when the total and
      some band other than 0-19 are reported without the 0-19 band. */
  lemma KickerScoresAgree(s: StatLine)
    requires "fg" !in s || "fg_0_19" in s || !HasFgBreakdown(s)
    ensures KickerScore(s) == KickerScoreIntended(s)
  {
  }

  // ---------------------------------------------------------------------
  // Defense scoring rules
  // ---------------------------------------------------------------------

  /** The linear defensive rules, each reading a missing stat as 0. */
  const DefenseRates: seq<Rate> := [
    Rate("sacks", 1.0),
    Rate("interceptions", 2.0),
    Rate("fumble_recoveries", 2.0),
    Rate("fumbles_forced", 1.0),
    Rate("safeties", 2.0),
    Rate("defensive_tds", 6.0),
    Rate("blocked_kicks", 2.0)
  ]

  /** One row of a bonus table: values in `[low, high]` earn `points`. */
  datatype Band = Band(low: real, high: real, points: real)

  predicate InBand(b: Band, v: real) {
    b.low <= v <= b.high
  }

  /** Points-allowed table, in the order the scorer scans it. */
  const PointsAllowedTable: seq<Band> := [
    Band(0.0, 0.0, 10.0),
    Band(1.0, 6.0, 7.0),
    Band(7.0, 13.0, 4.0),
    Band(14.0, 20.0, 1.0),
    Band(21.0, 27.0, 0.0),
    Band(28.0, 34.0, -1.0),
    Band(35.0, 100.0, -4.0)
  ]

  /** Yards-allowed table: a single band. */
  const YardsAllowedTable: seq<Band> := [Band(0.0, 99.0, 3.0)]

  /** Substituted when the projection has no points_allowed / yards_allowed. */
  const DefaultPointsAllowed: real := 20.0
  const DefaultYardsAllowed: real := 300.0

  /** Index of the first row at or after `from` whose range holds `v`. */
  function FirstMatchFrom(table: seq<Band>, v: real, from: nat): (r: Option<nat>)
    requires from <= |table|
    ensures r.Some? ==>
      (from <= r.value < |table| && InBand(table[r.value], v)
       && forall j :: from <= j < r.value ==> !InBand(table[j], v))
    ensures r.None? ==> forall j :: from <= j < |table| ==> !InBand(table[j], v)
    decreases |table| - from
  {
    if from == |table| then None
    else if InBand(table[from], v) then Some(from)
    else FirstMatchFrom(table, v, from + 1)
  }

  /** The scan `for (low, high), points in table: if low <= v <= high: ... break`:
      the value of the first row holding `v`, or 0 when none does. */
  function TableBonus(table: seq<Band>, v: real): (r: real)
    ensures (forall j :: 0 <= j < |table| ==> !InBand(table[j], v)) ==> r == 0.0
    ensures forall i :: (0 <= i < |table| && InBand(table[i], v)
      && (forall j :: 0 <= j < i ==> !InBand(table[j], v))) ==> r == table[i].points
  {
    match FirstMatchFrom(table, v, 0)
    case Some(i) => table[i].points
    case None => 0.0
  }

  /** Rows whose ranges do not overlap. */
  predicate Disjoint(table: seq<Band>) {
    forall i, j :: 0 <= i < j < |table| ==> table[i].high < table[j].low || table[j].high < table[i].low
  }

  /** In a table of non-overlapping rows, the first match is the only match:
      the bonus is the value of any row that holds `v`. */
  lemma DisjointTableBonus(table: seq<Band>, v: real, i: nat)
    requires Disjoint(table)
    requires i < |table| && InBand(table[i], v)
    ensures TableBonus(table, v) == table[i].points
  {
  }

  /** Both defensive tables have non-overlapping rows. */
  lemma DefenseTablesDisjoint()
    ensures Disjoint(PointsAllowedTable)
    ensures Disjoint(YardsAllowedTable)
  {
  }

  /** `DefenseScorer.calculate_projected_score`: the linear defensive stats, one
      points-allowed row and one yards-allowed row (defaults 20 and 300 when
      missing), rounded to one decimal. */
  function DefenseScore(s: StatLine): (r: real)
    ensures r == Round1(LinearPoints(DefenseRates, s)
      + TableBonus(PointsAllowedTable, GetOr(s, "points_allowed", DefaultPointsAllowed))
      + TableBonus(YardsAllowedTable, GetOr(s, "yards_allowed", DefaultYardsAllowed)))
  {
    var linear := Get(s, "sacks") * 1.0 + Get(s, "interceptions") * 2.0
      + Get(s, "fumble_recoveries") * 2.0 + Get(s, "fumbles_forced") * 1.0
      + Get(s, "safeties") * 2.0 + Get(s, "defensive_tds") * 6.0
      + Get(s, "blocked_kicks") * 2.0;
    DefenseLinearUnfold(s);
    var pa := GetOr(s, "points_allowed", DefaultPointsAllowed);
    var ya := GetOr(s, "yards_allowed", DefaultYardsAllowed);
    Round1(linear + TableBonus(PointsAllowedTable, pa) + TableBonus(YardsAllowedTable, ya))
  }

  /** The defensive rate table, term by term. */
  lemma DefenseLinearUnfold(s: StatLine)
    ensures LinearPoints(DefenseRates, s) ==
      Get(s, "sacks") * 1.0 + Get(s, "interceptions") * 2.0
      + Get(s, "fumble_recoveries") * 2.0 + Get(s, "fumbles_forced") * 1.0
      + Get(s, "safeties") * 2.0 + Get(s, "defensive_tds") * 6.0
      + Get(s, "blocked_kicks") * 2.0
  {
    var rs := DefenseRates;
    Linear7(rs, s);
    TermGet(s, rs[0]); TermGet(s, rs[1]); TermGet(s, rs[2]); TermGet(s, rs[3]);
    TermGet(s, rs[4]); TermGet(s, rs[5]); TermGet(s, rs[6]);
  }

  /** Any seven-rule table, term by term. */
  lemma Linear7(rs: seq<Rate>, s: StatLine)
    requires |rs| == 7
    ensures LinearPoints(rs, s) ==
      Term(s, rs[0]) + Term(s, rs[1]) + Term(s, rs[2]) + Term(s, rs[3])
      + Term(s, rs[4]) + Term(s, rs[5]) + Term(s, rs[6])
  {
    var a, b := rs[..4], rs[4..];
    assert rs == a + b;
    LinearAppend(a, b, s);
    Linear4(a, s);
    Linear3(b, s);
  }
}
