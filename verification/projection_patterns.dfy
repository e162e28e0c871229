/**
 * The copy of the pattern model inside fantasy_projections.py
 * (`HistoricalPatternAnalyzer`): fractions only, four field-goal bands,
 * lookups through the "F.Last" name conversion, and a 3.3-point fallback.
 */
module ProjectionPatterns {
  import opened Wrappers
  import opened Rounding
  import opened Plays
  import opened Names
  import Patterns

  /** A player's touchdown-length fractions. */
  datatype TdRates = TdRates(pct40To49: real, pct50Plus: real)

  /** A kicker's made-field-goal fractions over four bands (0-29 merged). */
  datatype FgRates = FgRates(p0To29: real, p30To39: real, p40To49: real, p50Plus: real)

  predicate ValidFgRates(r: FgRates) {
    && r.p0To29 >= 0.0 && r.p30To39 >= 0.0 && r.p40To49 >= 0.0 && r.p50Plus >= 0.0
    && r.p0To29 + r.p30To39 + r.p40To49 + r.p50Plus == 1.0
  }

  predicate Fg0To29(p: Play) { p.kickDistance < 30 }

  /** `analyze_td_patterns`: the fractions of the 40-49 and 50+ yard touchdowns
      for every player with at least three touchdowns. */
  function AnalyzeTdRates(pbp: seq<Play>): (r: map<string, TdRates>)
    ensures forall player :: player in r <==> |Patterns.PlayerTdPlays(pbp, player)| >= 3
  {
    forall player | |Patterns.PlayerTdPlays(pbp, player)| >= 3
      ensures player in Patterns.TdScorers(pbp)
    {
      Patterns.ScorerOfTdPlays(pbp, player);
    }
    map player | player in Patterns.TdScorers(pbp) && |Patterns.PlayerTdPlays(pbp, player)| >= 3
      :: var tds := Patterns.PlayerTdPlays(pbp, player);
         TdRates(Patterns.Fraction(Count(tds, Patterns.In40To49), |tds|),
                 Patterns.Fraction(Count(tds, Patterns.In50Plus), |tds|))
  }

  /** The two touchdown tables agree: same players, same fractions. */
  lemma TdTablesAgree(pbp: seq<Play>, player: string)
    ensures player in AnalyzeTdRates(pbp) <==> player in Patterns.AnalyzeTdPatterns(pbp)
    ensures player in AnalyzeTdRates(pbp) ==>
      AnalyzeTdRates(pbp)[player].pct40To49 == Patterns.AnalyzeTdPatterns(pbp)[player].pct40To49
      && AnalyzeTdRates(pbp)[player].pct50Plus == Patterns.AnalyzeTdPatterns(pbp)[player].pct50Plus
  {
  }

  /** The four bands partition the field goals. */
  lemma {:induction false} FourBandsPartition(fgs: seq<Play>)
    ensures Count(fgs, Fg0To29) + Count(fgs, Patterns.Fg30To39) + Count(fgs, Patterns.Fg40To49)
      + Count(fgs, Patterns.Fg50Plus) == |fgs|
    ensures Count(fgs, Fg0To29) == Count(fgs, Patterns.Fg0To19) + Count(fgs, Patterns.Fg20To29)
  {
    if |fgs| > 0 {
      FourBandsPartition(fgs[1..]);
    }
  }

  /** Four-band fractions of one kicker's made field goals. */
  function FgRatesOf(made: seq<Play>): (r: FgRates)
    requires |made| > 0
    ensures r.p0To29 == Patterns.Fraction(Count(made, Fg0To29), |made|)
    ensures r.p30To39 == Patterns.Fraction(Count(made, Patterns.Fg30To39), |made|)
    ensures r.p40To49 == Patterns.Fraction(Count(made, Patterns.Fg40To49), |made|)
    ensures r.p50Plus == Patterns.Fraction(Count(made, Patterns.Fg50Plus), |made|)
    ensures ValidFgRates(r)
  {
    var t := |made|;
    var c0, c30 := Count(made, Fg0To29), Count(made, Patterns.Fg30To39);
    var c40, c50 := Count(made, Patterns.Fg40To49), Count(made, Patterns.Fg50Plus);
    FourBandsPartition(made);
    RatesOfPartition(c0, c30, c40, c50, t);
    FgRates(Patterns.Fraction(c0, t), Patterns.Fraction(c30, t), Patterns.Fraction(c40, t), Patterns.Fraction(c50, t))
  }

  /** Four counts that add up to the total give fractions that add up to one. */
  lemma RatesOfPartition(c0: nat, c30: nat, c40: nat, c50: nat, t: nat)
    requires t > 0 && c0 + c30 + c40 + c50 == t
    ensures ValidFgRates(FgRates(Patterns.Fraction(c0, t), Patterns.Fraction(c30, t),
                                 Patterns.Fraction(c40, t), Patterns.Fraction(c50, t)))
  {
  }

  /** `analyze_fg_patterns`: four-band fractions for every named kicker with at
      least five made field goals. */
  function AnalyzeFgRates(pbp: seq<Play>): (r: map<string, FgRates>)
    ensures forall kicker :: kicker in r <==> |Patterns.MadeFgs(pbp, kicker)| >= 5
    ensures forall kicker :: kicker in r ==> ValidFgRates(r[kicker])
  {
    forall kicker | |Patterns.MadeFgs(pbp, kicker)| >= 5
      ensures kicker in Patterns.Kickers(pbp)
    {
      Patterns.KickerOfMadeFgs(pbp, kicker);
    }
    map kicker | kicker in Patterns.Kickers(pbp) && |Patterns.MadeFgs(pbp, kicker)| >= 5
      :: FgRatesOf(Patterns.MadeFgs(pbp, kicker))
  }

  /** The four-band table merges the five-band table's two shortest bands and
      keeps the others. */
  lemma FgTablesAgree(pbp: seq<Play>, kicker: string)
    ensures kicker in AnalyzeFgRates(pbp) <==> kicker in Patterns.AnalyzeFgPatterns(pbp)
    ensures kicker in AnalyzeFgRates(pbp) ==>
      var four := AnalyzeFgRates(pbp)[kicker];
      var five := Patterns.AnalyzeFgPatterns(pbp)[kicker].shares;
      four.p0To29 == five.p0To19 + five.p20To29 && four.p30To39 == five.p30To39
      && four.p40To49 == five.p40To49 && four.p50Plus == five.p50Plus
  {
  }

  /** The league-average expectation: 0.05 * 3 + 0.03 * 5 per touchdown. */
  function FallbackTdBonus(t: real): real {
    Round1(t * 0.05 * 3.0 + t * 0.03 * 5.0)
  }

  /** `get_player_td_bonus`: the converted name's fractions when it has a pattern,
      the league averages when it has none or the name has no space; an
      `IndexError` when the space does not separate two words. */
  function PlayerTdBonus(rates: map<string, TdRates>, player: string, t: real): (r: Result<real, string>)
    ensures r.Failure? <==> ShortName(player) == IndexError
    ensures Stripped(player) ==> r.Success?
    ensures r.Success? ==>
      if ShortName(player).Short? && ShortName(player).key in rates
      then r.value == Round1(Patterns.TdBonusRaw(rates[ShortName(player).key].pct40To49,
                                                 rates[ShortName(player).key].pct50Plus, t))
      else r.value == Round1(0.3 * t)
  {
    assert Stripped(player) && ' ' in player ==> ShortName(player).Short? by {
      if Stripped(player) && ' ' in player { StrippedNamesConvert(player); }
    }
    match ShortName(player)
    case IndexError => Failure("IndexError: list index out of range")
    case Short(key) =>
      if key in rates then
        var p := rates[key];
        Success(Round1(Patterns.TdBonusRaw(p.pct40To49, p.pct50Plus, t)))
      else Success(FallbackTdBonus(t))
    case NoSpace => Success(FallbackTdBonus(t))
  }

  /** The two copies look names up differently: a name without a space that is a
      key of the table gets the player's own fractions from the analyzer copy
      but the league averages from this one. */
  lemma ExactKeyLookupsDiffer(pbp: seq<Play>, player: string, t: real)
    requires ' ' !in player
    requires player in Patterns.AnalyzeTdPatterns(pbp)
    ensures PlayerTdBonus(AnalyzeTdRates(pbp), player, t) == Success(Round1(0.3 * t))
    ensures var p := Patterns.AnalyzeTdPatterns(pbp)[player];
      Patterns.ExpectedTdBonus(Patterns.AnalyzeTdPatterns(pbp), player, t)
        == Round1(Patterns.TdBonusRaw(p.pct40To49, p.pct50Plus, t))
  {
  }

  /** Points per projected field goal for a kicker without a pattern. */
  const FallbackFgRate: real := 3.3

  /** Field-goal points from four-band fractions, before rounding. */
  function FgPointsFromRates(r: FgRates, fgs: real): real {
    fgs * (r.p0To29 + r.p30To39 + r.p40To49) * 3.0 + fgs * r.p50Plus * 5.0
  }

  /** `get_kicker_points`: PATs at 1 point plus the field-goal expectation from
      the converted name's fractions, or 3.3 per field goal without a pattern;
      an `IndexError` as for the touchdown lookup. */
  function KickerPoints(rates: map<string, FgRates>, kicker: string, fgs: real, pats: real): (r: Result<real, string>)
    ensures r.Failure? <==> ShortName(kicker) == IndexError
    ensures Stripped(kicker) ==> r.Success?
    ensures r.Success? ==>
      if ShortName(kicker).Short? && ShortName(kicker).key in rates
      then r.value == Round1(pats + FgPointsFromRates(rates[ShortName(kicker).key], fgs))
      else r.value == Round1(pats + 3.3 * fgs)
  {
    assert Stripped(kicker) && ' ' in kicker ==> ShortName(kicker).Short? by {
      if Stripped(kicker) && ' ' in kicker { StrippedNamesConvert(kicker); }
    }
    var patPoints := pats * 1.0;
    match ShortName(kicker)
    case IndexError => Failure("IndexError: list index out of range")
    case Short(key) =>
      if key in rates then
        var p := rates[key];
        Success(Round1(patPoints + FgPointsFromRates(p, fgs)))
      else Success(Round1(patPoints + fgs * FallbackFgRate))
    case NoSpace => Success(Round1(patPoints + fgs * FallbackFgRate))
  }

  /** With valid fractions and a non-negative projection, a known kicker's
      points lie between PATs + 3 and PATs + 5 per field goal. */
  lemma KickerPointsBounds(r: FgRates, fgs: real)
    requires ValidFgRates(r) && fgs >= 0.0
    ensures 3.0 * fgs <= FgPointsFromRates(r, fgs) <= 5.0 * fgs
  {
    assert r.p0To29 + r.p30To39 + r.p40To49 == 1.0 - r.p50Plus;
    assert fgs * (1.0 - r.p50Plus) * 3.0 == 3.0 * fgs - 3.0 * (fgs * r.p50Plus);
    assert 0.0 <= fgs * r.p50Plus;
    assert fgs * r.p50Plus <= fgs by {
      assert fgs * (1.0 - r.p50Plus) >= 0.0;
    }
  }

  /** The two copies' fallbacks differ: two projected field goals by a kicker
      neither table knows are worth 6.6 here and 6.4 in the analyzer. */
  lemma FallbacksDiffer(kicker: string)
    requires Stripped(kicker)
    ensures KickerPoints(map[], kicker, 2.0, 0.0) == Success(6.6)
    ensures Patterns.ExpectedFgPoints(map[], kicker, 2.0) == 6.4
  {
  }
}
