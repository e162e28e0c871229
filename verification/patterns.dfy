/**
 * The historical pattern model of td_pattern_analyzer.py: per-player
 * touchdown-length fractions and per-kicker field-goal-distance fractions,
 * and the expected bonus points derived from them.
 */
module Patterns {
  import opened Wrappers
  import opened Rounding
  import opened Plays

  // ---------------------------------------------------------------------
  // Fractions
  // ---------------------------------------------------------------------

  /** `count / total` as a real. */
  function Fraction(count: nat, total: nat): real
    requires total > 0
  {
    count as real / total as real
  }

  /** `total / n` as a real: the `mean()` of a column of `n` integers summing to `total`. */
  function MeanOfTotal(total: int, n: nat): real
    requires n > 0
  {
    total as real / n as real
  }

  /** Fractions of one total add like their counts. */
  lemma FractionAdd(a: nat, b: nat, t: nat)
    requires t > 0
    ensures Fraction(a, t) + Fraction(b, t) == Fraction(a + b, t)
  {
  }

  /** A count within the total gives a fraction within [0, 1]. */
  lemma FractionBounds(a: nat, t: nat)
    requires t > 0 && a <= t
    ensures 0.0 <= Fraction(a, t) <= 1.0
  {
  }

  /** Two counts that fit together in the total give fractions that fit
      together within one. */
  lemma FractionsFit(a: nat, b: nat, t: nat)
    requires t > 0 && a + b <= t
    ensures 0.0 <= Fraction(a, t) <= 1.0 && 0.0 <= Fraction(b, t) <= 1.0
    ensures Fraction(a, t) + Fraction(b, t) <= 1.0
  {
    FractionAdd(a, b, t);
    FractionBounds(a + b, t);
    FractionBounds(a, t);
    FractionBounds(b, t);
  }

  // ---------------------------------------------------------------------
  // Touchdown-length patterns
  // ---------------------------------------------------------------------

  /** Fewer touchdowns than this leave a player without a pattern. */
  const MinTds: nat := 3

  /** A player's touchdown-length pattern. */
  datatype TdPattern = TdPattern(
    totalTds: nat, td40To49: nat, td50Plus: nat,
    pct40To49: real, pct50Plus: real, avgTdLength: real)

  /** The two bonus bands are fractions of the total that together stay within it. */
  predicate ValidTdPattern(p: TdPattern) {
    && 0.0 <= p.pct40To49 <= 1.0 && 0.0 <= p.pct50Plus <= 1.0
    && p.pct40To49 + p.pct50Plus <= 1.0
  }

  /** The named players credited with at least one touchdown. */
  function TdScorers(pbp: seq<Play>): set<string> {
    set i | 0 <= i < |pbp| && pbp[i].touchdown && pbp[i].tdPlayer.Some? :: pbp[i].tdPlayer.value
  }

  /** One player's touchdown plays. */
  function PlayerTdPlays(pbp: seq<Play>, player: string): seq<Play> {
    Filter(pbp, (p: Play) => p.touchdown && p.tdPlayer == Some(player))
  }

  predicate In40To49(p: Play) {
    40 <= p.yardsGained < 50
  }

  predicate In50Plus(p: Play) {
    p.yardsGained >= 50
  }

  /** Sum of the yards of the plays. */
  function SumYards(ps: seq<Play>): int {
    if |ps| == 0 then 0 else ps[0].yardsGained + SumYards(ps[1..])
  }

  /** The two bands are disjoint, so their counts fit in the total. */
  lemma {:induction false} TdBandsFit(tds: seq<Play>)
    ensures Count(tds, In40To49) + Count(tds, In50Plus) <= |tds|
  {
    if |tds| > 0 {
      TdBandsFit(tds[1..]);
    }
  }

  /** The pattern of one player's touchdowns. */
  function TdPatternOf(tds: seq<Play>): (p: TdPattern)
    requires |tds| > 0
    ensures p.totalTds == |tds|
    ensures p.td40To49 == Count(tds, In40To49) && p.td50Plus == Count(tds, In50Plus)
    ensures p.pct40To49 == Fraction(p.td40To49, p.totalTds) && p.pct50Plus == Fraction(p.td50Plus, p.totalTds)
    ensures p.avgTdLength == MeanOfTotal(SumYards(tds), |tds|)
    ensures ValidTdPattern(p)
  {
    var total := |tds|;
    var c40 := Count(tds, In40To49);
    var c50 := Count(tds, In50Plus);
    TdBandsFit(tds);
    FractionsFit(c40, c50, total);
    TdPattern(total, c40, c50, Fraction(c40, total), Fraction(c50, total),
              MeanOfTotal(SumYards(tds), total))
  }

  /** A player whose touchdown plays are not empty appears among the scorers. */
  lemma ScorerOfTdPlays(pbp: seq<Play>, player: string)
    requires |PlayerTdPlays(pbp, player)| > 0
    ensures player in TdScorers(pbp)
  {
    var x := PlayerTdPlays(pbp, player)[0];
    var i :| 0 <= i < |pbp| && pbp[i] == x;
  }

  /** `analyze_td_patterns`: a pattern for exactly the players with at least
      three touchdowns, computed from their own touchdowns. */
  function AnalyzeTdPatterns(pbp: seq<Play>): (r: map<string, TdPattern>)
    ensures forall player :: player in r <==> |PlayerTdPlays(pbp, player)| >= MinTds
    ensures forall player :: player in r ==> r[player] == TdPatternOf(PlayerTdPlays(pbp, player))
    ensures forall player :: player in r ==> ValidTdPattern(r[player])
  {
    forall player | |PlayerTdPlays(pbp, player)| >= MinTds
      ensures player in TdScorers(pbp)
    {
      ScorerOfTdPlays(pbp, player);
    }
    map player | player in TdScorers(pbp) && |PlayerTdPlays(pbp, player)| >= MinTds
      :: TdPatternOf(PlayerTdPlays(pbp, player))
  }

  // ---------------------------------------------------------------------
  // Field-goal-distance patterns
  // ---------------------------------------------------------------------

  /** Fewer made field goals than this leave a kicker without a pattern. */
  const MinMadeFgs: nat := 5

  /** The share of field goals in each of the five distance bands. */
  datatype FgShares = FgShares(p0To19: real, p20To29: real, p30To39: real, p40To49: real, p50Plus: real)

  /** Shares that are fractions and add up to one. */
  predicate ValidShares(s: FgShares) {
    && s.p0To19 >= 0.0 && s.p20To29 >= 0.0 && s.p30To39 >= 0.0 && s.p40To49 >= 0.0 && s.p50Plus >= 0.0
    && s.p0To19 + s.p20To29 + s.p30To39 + s.p40To49 + s.p50Plus == 1.0
  }

  /** A kicker's made-field-goal pattern. */
  datatype FgPattern = FgPattern(
    totalMade: nat, fg0To19: nat, fg20To29: nat, fg30To39: nat, fg40To49: nat, fg50Plus: nat,
    shares: FgShares, avgDistance: real)

  /** The named kickers with at least one attempt (null names are skipped). */
  function Kickers(pbp: seq<Play>): set<string> {
    set i | 0 <= i < |pbp| && pbp[i].fieldGoalAttempt && pbp[i].kicker.Some? :: pbp[i].kicker.value
  }

  /** One kicker's made field goals. */
  function MadeFgs(pbp: seq<Play>, kicker: string): seq<Play> {
    Filter(pbp, (p: Play) => p.fieldGoalAttempt && p.kicker == Some(kicker) && p.fgResult == "made")
  }

  predicate Fg0To19(p: Play) { p.kickDistance < 20 }
  predicate Fg20To29(p: Play) { 20 <= p.kickDistance < 30 }
  predicate Fg30To39(p: Play) { 30 <= p.kickDistance < 40 }
  predicate Fg40To49(p: Play) { 40 <= p.kickDistance < 50 }
  predicate Fg50Plus(p: Play) { p.kickDistance >= 50 }

  /** Sum of the kick distances. */
  function SumDistance(ps: seq<Play>): int {
    if |ps| == 0 then 0 else ps[0].kickDistance + SumDistance(ps[1..])
  }

  /** The five distance bands partition the field goals. */
  lemma {:induction false} FgBandsPartition(fgs: seq<Play>)
    ensures Count(fgs, Fg0To19) + Count(fgs, Fg20To29) + Count(fgs, Fg30To39)
      + Count(fgs, Fg40To49) + Count(fgs, Fg50Plus) == |fgs|
  {
    if |fgs| > 0 {
      FgBandsPartition(fgs[1..]);
    }
  }

  /** Five counts that add up to the total give shares that add up to one. */
  lemma SharesOfPartition(c0: nat, c20: nat, c30: nat, c40: nat, c50: nat, t: nat)
    requires t > 0 && c0 + c20 + c30 + c40 + c50 == t
    ensures ValidShares(FgShares(Fraction(c0, t), Fraction(c20, t), Fraction(c30, t), Fraction(c40, t), Fraction(c50, t)))
  {
  }

  /** The pattern of one kicker's made field goals. */
  function FgPatternOf(made: seq<Play>): (p: FgPattern)
    requires |made| > 0
    ensures p.totalMade == |made|
    ensures p.fg0To19 == Count(made, Fg0To19) && p.fg20To29 == Count(made, Fg20To29)
      && p.fg30To39 == Count(made, Fg30To39) && p.fg40To49 == Count(made, Fg40To49)
      && p.fg50Plus == Count(made, Fg50Plus)
    ensures p.fg0To19 + p.fg20To29 + p.fg30To39 + p.fg40To49 + p.fg50Plus == p.totalMade
    ensures p.shares.p0To19 == Fraction(p.fg0To19, p.totalMade) && p.shares.p20To29 == Fraction(p.fg20To29, p.totalMade)
      && p.shares.p30To39 == Fraction(p.fg30To39, p.totalMade) && p.shares.p40To49 == Fraction(p.fg40To49, p.totalMade)
      && p.shares.p50Plus == Fraction(p.fg50Plus, p.totalMade)
    ensures p.avgDistance == MeanOfTotal(SumDistance(made), |made|)
    ensures ValidShares(p.shares)
  {
    var t := |made|;
    var c0, c20, c30 := Count(made, Fg0To19), Count(made, Fg20To29), Count(made, Fg30To39);
    var c40, c50 := Count(made, Fg40To49), Count(made, Fg50Plus);
    FgBandsPartition(made);
    SharesOfPartition(c0, c20, c30, c40, c50, t);
    FgPattern(t, c0, c20, c30, c40, c50,
      FgShares(Fraction(c0, t), Fraction(c20, t), Fraction(c30, t), Fraction(c40, t), Fraction(c50, t)),
      MeanOfTotal(SumDistance(made), t))
  }

  /** A kicker with made field goals appears among the kickers. */
  lemma KickerOfMadeFgs(pbp: seq<Play>, kicker: string)
    requires |MadeFgs(pbp, kicker)| > 0
    ensures kicker in Kickers(pbp)
  {
    var x := MadeFgs(pbp, kicker)[0];
    var i :| 0 <= i < |pbp| && pbp[i] == x;
  }

  /** `analyze_fg_patterns`: a pattern for exactly the named kickers with at
      least five made field goals; misses do not count. */
  function AnalyzeFgPatterns(pbp: seq<Play>): (r: map<string, FgPattern>)
    ensures forall kicker :: kicker in r <==> |MadeFgs(pbp, kicker)| >= MinMadeFgs
    ensures forall kicker :: kicker in r ==> r[kicker] == FgPatternOf(MadeFgs(pbp, kicker))
    ensures forall kicker :: kicker in r ==> ValidShares(r[kicker].shares)
  {
    forall kicker | |MadeFgs(pbp, kicker)| >= MinMadeFgs
      ensures kicker in Kickers(pbp)
    {
      KickerOfMadeFgs(pbp, kicker);
    }
    map kicker | kicker in Kickers(pbp) && |MadeFgs(pbp, kicker)| >= MinMadeFgs
      :: FgPatternOf(MadeFgs(pbp, kicker))
  }

  // ---------------------------------------------------------------------
  // Expected bonus points
  // ---------------------------------------------------------------------

  /** League-average touchdown-length fractions for players without a pattern. */
  const League40To49: real := 0.05
  const League50Plus: real := 0.03

  /** League-average field-goal-distance shares for kickers without a pattern. */
  const LeagueFgShares: FgShares := FgShares(0.05, 0.20, 0.35, 0.30, 0.10)

  /** Expected length-bonus points of `t` projected touchdowns, before rounding:
      3 per expected 40-49 yard touchdown, 5 per expected 50+ one. */
  function TdBonusRaw(pct40To49: real, pct50Plus: real, t: real): real {
    t * pct40To49 * 3.0 + t * pct50Plus * 5.0
  }

  /** `get_player_td_bonus_expectation`: the player's own fractions when the
      exact name has a pattern, the league averages otherwise. */
  function ExpectedTdBonus(patterns: map<string, TdPattern>, player: string, t: real): (r: real)
    ensures player in patterns ==>
      r == Round1(TdBonusRaw(patterns[player].pct40To49, patterns[player].pct50Plus, t))
    ensures player !in patterns ==> r == Round1(0.3 * t)
  {
    var (a, b) := if player !in patterns then (League40To49, League50Plus)
                  else (patterns[player].pct40To49, patterns[player].pct50Plus);
    Round1(TdBonusRaw(a, b, t))
  }

  /** Before rounding the expectation is linear in the projected touchdowns. */
  lemma TdBonusLinear(a: real, b: real, t1: real, t2: real, c: real)
    ensures TdBonusRaw(a, b, t1 + t2) == TdBonusRaw(a, b, t1) + TdBonusRaw(a, b, t2)
    ensures TdBonusRaw(a, b, c * t1) == c * TdBonusRaw(a, b, t1)
  {
  }

  /** With valid fractions and a non-negative projection, the expectation lies
      between 0 and 5 points per projected touchdown. */
  lemma TdBonusBounds(p: TdPattern, t: real)
    requires ValidTdPattern(p) && t >= 0.0
    ensures 0.0 <= TdBonusRaw(p.pct40To49, p.pct50Plus, t) <= 5.0 * t
  {
    var a, b := p.pct40To49, p.pct50Plus;
    assert t * a >= 0.0 && t * b >= 0.0;
    assert t * a + t * b == t * (a + b);
    assert t * (a + b) <= t * 1.0;
    assert t * a * 3.0 <= t * a * 5.0;
    assert TdBonusRaw(a, b, t) <= 5.0 * (t * a + t * b);
  }

  /** A player with fewer than three touchdowns has no pattern, so their
      expectation is the league-average one, 0.3 points per touchdown. */
  lemma FewTdsUseLeagueAverage(pbp: seq<Play>, player: string, t: real)
    requires |PlayerTdPlays(pbp, player)| < MinTds
    ensures ExpectedTdBonus(AnalyzeTdPatterns(pbp), player, t) == Round1(0.3 * t)
  {
  }

  /** Expected made field goals per distance band. */
  datatype FgDistribution = FgDistribution(fg0To19: real, fg20To29: real, fg30To39: real, fg40To49: real, fg50Plus: real)

  /** The projected field goals spread over the bands by `shares`. */
  function Distribute(shares: FgShares, fgs: real): (d: FgDistribution)
    ensures ValidShares(shares) ==>
      d.fg0To19 + d.fg20To29 + d.fg30To39 + d.fg40To49 + d.fg50Plus == fgs
  {
    var d := FgDistribution(fgs * shares.p0To19, fgs * shares.p20To29, fgs * shares.p30To39,
                            fgs * shares.p40To49, fgs * shares.p50Plus);
    assert d.fg0To19 + d.fg20To29 + d.fg30To39 + d.fg40To49 + d.fg50Plus
      == fgs * (shares.p0To19 + shares.p20To29 + shares.p30To39 + shares.p40To49 + shares.p50Plus);
    d
  }

  /** Points of a distribution before rounding: 3 below 50 yards, 5 from 50. */
  function FgPointsRaw(d: FgDistribution): real {
    (d.fg0To19 + d.fg20To29 + d.fg30To39 + d.fg40To49) * 3.0 + d.fg50Plus * 5.0
  }

  /** `get_kicker_fg_distribution`: the kicker's own shares when the exact name
      has a pattern, the league shares otherwise, scored and rounded. */
  function ExpectedFgPoints(patterns: map<string, FgPattern>, kicker: string, fgs: real): (r: real)
    ensures kicker in patterns ==> r == Round1(FgPointsRaw(Distribute(patterns[kicker].shares, fgs)))
    ensures kicker !in patterns ==> r == Round1(3.2 * fgs)
  {
    var shares := if kicker !in patterns then LeagueFgShares else patterns[kicker].shares;
    LeagueFgPoints(fgs);
    Round1(FgPointsRaw(Distribute(shares, fgs)))
  }

  /** The league shares are valid and are worth 3.2 points per field goal. */
  lemma LeagueFgPoints(fgs: real)
    ensures ValidShares(LeagueFgShares)
    ensures FgPointsRaw(Distribute(LeagueFgShares, fgs)) == 3.2 * fgs
  {
  }

  /** With valid shares and a non-negative projection, field-goal points lie
      between 3 and 5 per projected field goal. */
  lemma FgPointsBounds(shares: FgShares, fgs: real)
    requires ValidShares(shares) && fgs >= 0.0
    ensures 3.0 * fgs <= FgPointsRaw(Distribute(shares, fgs)) <= 5.0 * fgs
  {
    var d := Distribute(shares, fgs);
    assert d.fg0To19 + d.fg20To29 + d.fg30To39 + d.fg40To49 == fgs - d.fg50Plus;
    assert 0.0 <= fgs * shares.p50Plus;
    assert fgs * shares.p50Plus <= fgs by {
      assert shares.p50Plus <= 1.0;
      assert fgs * (1.0 - shares.p50Plus) >= 0.0;
    }
  }
}
