/** Properties of the projection scorers stated over whole stat lines. */
module ScorerFacts {
  import opened Stats
  import opened Rounding
  import opened Scorers

  /** The stat names the offensive scorer reads. */
  const OffenseKeys: set<string> := Keys(OffenseRates)

  /** Unknown stat names are ignored: dropping every key the scorer does not
      read leaves the offensive score unchanged. */
  lemma OffenseIgnoresUnknownKeys(s: StatLine)
    ensures OffenseScore(Restrict(s, OffenseKeys)) == OffenseScore(s)
  {
    var t := Restrict(s, OffenseKeys);
    LinearRestrict(OffenseRates, s);
    assert OffenseRates[1].key == "passing_yards" && OffenseRates[6].key == "rushing_yards"
      && OffenseRates[9].key == "receiving_yards";
    assert "passing_yards" in OffenseKeys && "rushing_yards" in OffenseKeys && "receiving_yards" in OffenseKeys;
    SameYardageBonuses(t, s);
    OffenseScoreOfParts(t, s);
  }

  /** Yardage bonuses read only the three yardage stats. */
  lemma SameYardageBonuses(s: StatLine, t: StatLine)
    requires forall k :: k in {"passing_yards", "rushing_yards", "receiving_yards"} ==> (k in s <==> k in t)
    requires forall k :: k in {"passing_yards", "rushing_yards", "receiving_yards"} && k in s ==> s[k] == t[k]
    ensures YardageBonuses(s) == YardageBonuses(t)
  {
  }

  /** Two lines with the same linear points and bonuses score the same. */
  lemma OffenseScoreOfParts(s: StatLine, t: StatLine)
    requires LinearPoints(OffenseRates, s) == LinearPoints(OffenseRates, t)
    requires YardageBonuses(s) == YardageBonuses(t)
    ensures OffenseScore(s) == OffenseScore(t)
  {
  }

  /** An empty projection scores nothing. */
  lemma OffenseEmpty()
    ensures OffenseScore(map[]) == 0.0
  {
  }

  /** Rushing bonuses stack: 150 yards earn 15 + 5 = 20 points, 250 yards earn
      25 + 5 + 10 = 40 points. */
  lemma RushingBonusesStack()
    ensures OffenseScore(map["rushing_yards" := 150.0]) == 20.0
    ensures OffenseScore(map["rushing_yards" := 250.0]) == 40.0
  {
  }

  /** Passing bonuses do not stack: 350 yards earn 14 + 3 and 420 yards earn
      16.8 + 5, never the 3 and the 5 together. */
  lemma PassingBonusExclusive()
    ensures OffenseScore(map["passing_yards" := 350.0]) == 17.0
    ensures OffenseScore(map["passing_yards" := 420.0]) == 21.8
  {
    var s1 := map["passing_yards" := 350.0];
    var s2 := map["passing_yards" := 420.0];
    OffenseLinearUnfold(s1);
    OffenseLinearUnfold(s2);
    Round1OfTenths(170);
    Round1OfTenths(218);
  }

  /** With no stats the defence gets the defaults' rows: 20 points allowed earns
      1, 300 yards allowed earns nothing. */
  lemma DefenseEmpty()
    ensures DefenseScore(map[]) == 1.0
  {
    LinearEmpty(DefenseRates);
    DefenseTablesDisjoint();
    DisjointTableBonus(PointsAllowedTable, 20.0, 3);
    Round1OfTenths(10);
  }

  /** A defense with 3 sacks, 1 interception, no other scoring plays, 17
      points and 250 yards allowed scores 3 + 2 + 1 + 0. */
  lemma DefenseExample(s: StatLine)
    requires Get(s, "sacks") == 3.0 && Get(s, "interceptions") == 1.0
    requires Get(s, "fumble_recoveries") == 0.0 && Get(s, "fumbles_forced") == 0.0
    requires Get(s, "safeties") == 0.0 && Get(s, "defensive_tds") == 0.0
    requires Get(s, "blocked_kicks") == 0.0
    requires GetOr(s, "points_allowed", DefaultPointsAllowed) == 17.0
    requires GetOr(s, "yards_allowed", DefaultYardsAllowed) == 250.0
    ensures DefenseScore(s) == 6.0
  {
    assert LinearPoints(DefenseRates, s) == 5.0 by {
      DefenseLinearUnfold(s);
    }
    assert TableBonus(PointsAllowedTable, 17.0) == 1.0 by {
      DefenseTablesDisjoint();
      DisjointTableBonus(PointsAllowedTable, 17.0, 3);
    }
    assert TableBonus(YardsAllowedTable, 250.0) == 0.0;
    Round1OfTenths(60);
    assert 60 as real / 10.0 == 5.0 + 1.0 + 0.0;
  }

  /** A value in no row earns nothing: a fractional score between rows, more
      than 100 points, or 100+ yards allowed. */
  lemma DefenseGapsScoreZero(v: real)
    ensures TableBonus(PointsAllowedTable, 6.5) == 0.0
    ensures v > 100.0 ==> TableBonus(PointsAllowedTable, v) == 0.0
    ensures v > 99.0 ==> TableBonus(YardsAllowedTable, v) == 0.0
  {
  }
}
