/**
 * Kickoff and punt return yards per game, credited to the kicking team
 * ("allowed") or the returning team ("gained"), with the league average as
 * the fallback (return_yards_analyzer.py), and the copy inside
 * fantasy_projections.py with its fixed 62.5-yard fallback.
 */
module ReturnYards {
  import opened Wrappers
  import opened Rounding
  import opened Plays

  // ---------------------------------------------------------------------
  // Crediting return yards
  // ---------------------------------------------------------------------

  /** A kickoff or punt with a known, positive return. */
  predicate PositiveReturn(p: Play) {
    && (p.kickoffAttempt || p.puntAttempt)
    && p.returnYards.Some? && p.returnYards.value > 0.0
  }

  /** Which team a return is credited to: the kicking team (`posteam`), which
      allowed it, or the returning team (`defteam`), which gained it. */
  datatype Side = KickingTeam | ReturningTeam

  /** The team a play's return yards are credited to, if any: none unless the
      return is positive and the crediting column is present. */
  function CreditedTeam(p: Play, side: Side): (r: Option<string>)
    ensures r.Some? ==> PositiveReturn(p)
    ensures r.Some? <==> PositiveReturn(p) && (if side.KickingTeam? then p.posteam.Some? else p.defteam.Some?)
  {
    if !PositiveReturn(p) then None
    else if side.KickingTeam? then p.posteam
    else p.defteam
  }

  /** The return yards credited to `team` over a season. */
  function TeamReturnYards(pbp: seq<Play>, side: Side, team: string): (r: real)
    ensures r >= 0.0
  {
    if |pbp| == 0 then 0.0
    else
      var here := if CreditedTeam(pbp[0], side) == Some(team) then pbp[0].returnYards.value else 0.0;
      here + TeamReturnYards(pbp[1..], side, team)
  }

  /** Credited totals add up over any split of the plays. */
  lemma {:induction false} TeamReturnYardsAppend(a: seq<Play>, b: seq<Play>, side: Side, team: string)
    ensures TeamReturnYards(a + b, side, team) == TeamReturnYards(a, side, team) + TeamReturnYards(b, side, team)
  {
    if |a| == 0 {
      assert a + b == b;
    } else {
      assert (a + b)[1..] == a[1..] + b;
      TeamReturnYardsAppend(a[1..], b, side, team);
    }
  }

  /** One play adds its return yards to the team it credits, and nothing to
      any other team. */
  lemma TeamReturnYardsOfOne(p: Play, side: Side, team: string)
    ensures TeamReturnYards([p], side, team) ==
      if CreditedTeam(p, side) == Some(team) then p.returnYards.value else 0.0
  {
    assert [p][1..] == [];
  }

  /** A team's credited total is positive exactly when some play credits it. */
  lemma {:induction false} CreditedIffPositive(pbp: seq<Play>, side: Side, team: string)
    ensures TeamReturnYards(pbp, side, team) > 0.0
      <==> exists i :: 0 <= i < |pbp| && CreditedTeam(pbp[i], side) == Some(team)
  {
    if |pbp| > 0 {
      CreditedIffPositive(pbp[1..], side, team);
      if exists i :: 0 <= i < |pbp| && CreditedTeam(pbp[i], side) == Some(team) {
        var i :| 0 <= i < |pbp| && CreditedTeam(pbp[i], side) == Some(team);
        if i > 0 {
          assert CreditedTeam(pbp[1..][i - 1], side) == Some(team);
        }
      }
      if TeamReturnYards(pbp[1..], side, team) > 0.0 {
        var j :| 0 <= j < |pbp[1..]| && CreditedTeam(pbp[1..][j], side) == Some(team);
        assert CreditedTeam(pbp[j + 1], side) == Some(team);
      }
    }
  }

  /** The credited team of every play with one, in play order (with repeats). */
  function Credits(pbp: seq<Play>, side: Side): (r: seq<string>)
    ensures forall i :: 0 <= i < |pbp| && CreditedTeam(pbp[i], side).Some? ==>
      CreditedTeam(pbp[i], side).value in r
    ensures forall k :: 0 <= k < |r| ==>
      exists i :: 0 <= i < |pbp| && CreditedTeam(pbp[i], side) == Some(r[k])
  {
    if |pbp| == 0 then []
    else
      var rest := Credits(pbp[1..], side);
      assert forall k :: 0 <= k < |rest| ==>
        exists i :: 0 <= i < |pbp| && CreditedTeam(pbp[i], side) == Some(rest[k]) by {
        forall k | 0 <= k < |rest|
          ensures exists i :: 0 <= i < |pbp| && CreditedTeam(pbp[i], side) == Some(rest[k])
        {
          var j :| 0 <= j < |pbp[1..]| && CreditedTeam(pbp[1..][j], side) == Some(rest[k]);
          assert CreditedTeam(pbp[j + 1], side) == Some(rest[k]);
        }
      }
      match CreditedTeam(pbp[0], side)
      case Some(t) => [t] + rest
      case None => rest
  }

  // ---------------------------------------------------------------------
  // Games per team
  // ---------------------------------------------------------------------

  /** The grouping key of a game. */
  datatype GameKey = GameKey(gameId: string, home: string, away: string)

  function KeyOf(p: Play): GameKey {
    GameKey(p.gameId, p.homeTeam, p.awayTeam)
  }

  function Keys(pbp: seq<Play>): (r: seq<GameKey>)
    ensures |r| == |pbp|
    ensures forall i :: 0 <= i < |pbp| ==> r[i] == KeyOf(pbp[i])
  {
    if |pbp| == 0 then [] else [KeyOf(pbp[0])] + Keys(pbp[1..])
  }

  /** The distinct games of the play-by-play data, each once. */
  function Games(pbp: seq<Play>): (g: seq<GameKey>)
    ensures forall i :: 0 <= i < |pbp| ==> KeyOf(pbp[i]) in g
    ensures forall k :: 0 <= k < |g| ==> exists i :: 0 <= i < |pbp| && KeyOf(pbp[i]) == g[k]
    ensures forall i, j :: 0 <= i < j < |g| ==> g[i] != g[j]
  {
    var keys := Keys(pbp);
    var g := Distinct(keys);
    assert forall k :: 0 <= k < |g| ==> exists i :: 0 <= i < |pbp| && KeyOf(pbp[i]) == g[k] by {
      forall k | 0 <= k < |g|
        ensures exists i :: 0 <= i < |pbp| && KeyOf(pbp[i]) == g[k]
      {
        var i :| 0 <= i < |keys| && keys[i] == g[k];
        assert KeyOf(pbp[i]) == g[k];
      }
    }
    assert forall i :: 0 <= i < |pbp| ==> KeyOf(pbp[i]) in g by {
      forall i | 0 <= i < |pbp| ensures KeyOf(pbp[i]) in g {
        assert keys[i] == KeyOf(pbp[i]) && keys[i] in g;
      }
    }
    g
  }

  /** Games a team played: every game adds one to its home team and one to
      its away team. */
  function GamesPlayed(games: seq<GameKey>, team: string): (n: nat)
    ensures n <= 2 * |games|
  {
    if |games| == 0 then 0
    else
      var g := games[|games| - 1];
      GamesPlayed(games[..|games| - 1], team)
        + (if g.home == team then 1 else 0) + (if g.away == team then 1 else 0)
  }

  /** Game counts add up over any split of the games. */
  lemma {:induction false} GamesPlayedAppend(a: seq<GameKey>, b: seq<GameKey>, team: string)
    ensures GamesPlayed(a + b, team) == GamesPlayed(a, team) + GamesPlayed(b, team)
    decreases |b|
  {
    if |b| == 0 {
      assert a + b == a;
    } else {
      var b' := b[..|b| - 1];
      assert (a + b)[..|a + b| - 1] == a + b';
      GamesPlayedAppend(a, b', team);
    }
  }

  /** One game counts once for its home team and once for its away team. */
  lemma GamesPlayedOfOne(g: GameKey, team: string)
    ensures GamesPlayed([g], team) == (if g.home == team then 1 else 0) + (if g.away == team then 1 else 0)
  {
    assert [g][..0] == [];
  }

  /** A team has played exactly when it is the home or away team of a game. */
  lemma {:induction false} PlayedIffListed(games: seq<GameKey>, team: string)
    ensures GamesPlayed(games, team) > 0
      <==> exists k :: 0 <= k < |games| && (games[k].home == team || games[k].away == team)
  {
    if |games| > 0 {
      var front := games[..|games| - 1];
      PlayedIffListed(front, team);
      if exists k :: 0 <= k < |front| && (front[k].home == team || front[k].away == team) {
        var k :| 0 <= k < |front| && (front[k].home == team || front[k].away == team);
        assert games[k] == front[k];
      }
      if exists k :: 0 <= k < |games| && (games[k].home == team || games[k].away == team) {
        var k :| 0 <= k < |games| && (games[k].home == team || games[k].away == team);
        if k < |front| {
          assert front[k] == games[k];
        }
      }
    }
  }

  // ---------------------------------------------------------------------
  // Per-team averages
  // ---------------------------------------------------------------------

  /** One entry of a per-game average table. */
  datatype TeamAverage = TeamAverage(team: string, avg: real)

  /** A table lookup (`team in table`, `table[team]`). */
  function Lookup(table: seq<TeamAverage>, team: string): (r: Option<real>)
    ensures r.Some? <==> exists k :: 0 <= k < |table| && table[k].team == team
    ensures r.Some? ==> exists k :: 0 <= k < |table| && table[k] == TeamAverage(team, r.value)
  {
    if |table| == 0 then None
    else if table[0].team == team then Some(table[0].avg)
    else
      var r := Lookup(table[1..], team);
      assert r.Some? ==> exists k :: 0 <= k < |table| && table[k] == TeamAverage(team, r.value) by {
        if r.Some? {
          var k :| 0 <= k < |table[1..]| && table[1..][k] == TeamAverage(team, r.value);
          assert table[k + 1] == TeamAverage(team, r.value);
        }
      }
      assert (exists k :: 0 <= k < |table| && table[k].team == team)
        ==> (exists k :: 0 <= k < |table[1..]| && table[1..][k].team == team) by {
        if exists k :: 0 <= k < |table| && table[k].team == team {
          var k :| 0 <= k < |table| && table[k].team == team;
          assert table[1..][k - 1].team == team;
        }
      }
      r
  }

  /** A team's per-game average, rounded to one decimal. */
  function TeamAverageOf(pbp: seq<Play>, side: Side, games: seq<GameKey>, team: string): (r: real)
    requires GamesPlayed(games, team) > 0
    ensures -0.05 <= r - TeamReturnYards(pbp, side, team) / GamesPlayed(games, team) as real <= 0.05
    ensures r >= 0.0
  {
    var q := TeamReturnYards(pbp, side, team) / GamesPlayed(games, team) as real;
    Round1Monotone(0.0, q);
    Round1OfTenths(0);
    Round1(q)
  }

  /** The listed teams that played at least one game, in order. */
  function PlayedTeams(teams: seq<string>, games: seq<GameKey>): (p: seq<string>)
    ensures forall k :: 0 <= k < |p| ==> GamesPlayed(games, p[k]) > 0
    ensures forall t :: t in p <==> t in teams && GamesPlayed(games, t) > 0
    ensures (forall i, j :: 0 <= i < j < |teams| ==> teams[i] != teams[j]) ==>
      forall i, j :: 0 <= i < j < |p| ==> p[i] != p[j]
  {
    var played := (t: string) => GamesPlayed(games, t) > 0;
    assert (forall i, j :: 0 <= i < j < |teams| ==> teams[i] != teams[j]) ==>
      forall i, j :: 0 <= i < j < |Filter(teams, played)| ==> Filter(teams, played)[i] != Filter(teams, played)[j] by {
      if forall i, j :: 0 <= i < j < |teams| ==> teams[i] != teams[j] {
        FilterDistinct(teams, played);
      }
    }
    Filter(teams, played)
  }

  /** The averages of the listed teams that played at least one game. */
  function AveragesOf(teams: seq<string>, pbp: seq<Play>, side: Side, games: seq<GameKey>): (r: seq<TeamAverage>)
    ensures |r| == |PlayedTeams(teams, games)|
    ensures forall k :: 0 <= k < |r| ==> r[k].team == PlayedTeams(teams, games)[k]
    ensures forall t :: Lookup(r, t).Some? <==> t in teams && GamesPlayed(games, t) > 0
    ensures forall t :: Lookup(r, t).Some? ==> Lookup(r, t).value == TeamAverageOf(pbp, side, games, t)
  {
    var p := PlayedTeams(teams, games);
    var r := seq(|p|, k requires 0 <= k < |p| => TeamAverage(p[k], TeamAverageOf(pbp, side, games, p[k])));
    assert forall t :: Lookup(r, t).Some? <==> t in p by {
      forall t ensures Lookup(r, t).Some? <==> t in p {
        if t in p {
          var k :| 0 <= k < |p| && p[k] == t;
          assert r[k].team == t;
        }
      }
    }
    r
  }

  /** Teams listed once have one entry each. */
  lemma AveragesOfDistinct(teams: seq<string>, pbp: seq<Play>, side: Side, games: seq<GameKey>)
    requires forall i, j :: 0 <= i < j < |teams| ==> teams[i] != teams[j]
    ensures forall i, j :: 0 <= i < j < |AveragesOf(teams, pbp, side, games)| ==>
      AveragesOf(teams, pbp, side, games)[i].team != AveragesOf(teams, pbp, side, games)[j].team
  {
  }

  /** `analyze_return_yards`'s table for one side: a rounded per-game average
      for exactly the credited teams that played a game, one entry per team
      in order of first credit. */
  function Averages(pbp: seq<Play>, side: Side): (r: seq<TeamAverage>)
    ensures forall t :: Lookup(r, t).Some? <==>
      (exists i :: 0 <= i < |pbp| && CreditedTeam(pbp[i], side) == Some(t)) && GamesPlayed(Games(pbp), t) > 0
    ensures forall t :: Lookup(r, t).Some? ==> Lookup(r, t).value == TeamAverageOf(pbp, side, Games(pbp), t)
    ensures forall i, j :: 0 <= i < j < |r| ==> r[i].team != r[j].team
  {
    var credits := Credits(pbp, side);
    var teams := Distinct(credits);
    AveragesOfDistinct(teams, pbp, side, Games(pbp));
    AveragesOf(teams, pbp, side, Games(pbp))
  }

  // ---------------------------------------------------------------------
  // League average and lookups
  // ---------------------------------------------------------------------

  /** The averages of a table, in order (`allowed_avg.values()`). */
  function AvgsOf(table: seq<TeamAverage>): (r: seq<real>)
    ensures |r| == |table|
    ensures forall k :: 0 <= k < |r| ==> r[k] == table[k].avg
  {
    seq(|table|, k requires 0 <= k < |table| => table[k].avg)
  }

  /** A total between `n * lo` and `n * hi` has its quotient by `n` between
      `lo` and `hi`. */
  lemma QuotientBetween(s: real, n: real, lo: real, hi: real)
    requires n > 0.0 && n * lo <= s <= n * hi
    ensures lo <= s / n <= hi
  {
    var q := s / n;
    assert (q - lo) * n == s - n * lo >= 0.0;
    assert (hi - q) * n == n * hi - s >= 0.0;
  }

  /** The league average: the rounded mean of the per-team averages, or 0 when
      no team has one. */
  function LeagueAverage(table: seq<TeamAverage>): (r: real)
    ensures |table| == 0 ==> r == 0.0
    ensures |table| > 0 ==> -0.05 <= r - Sum(AvgsOf(table)) / |table| as real <= 0.05
  {
    if |table| == 0 then 0.0 else Round1(Sum(AvgsOf(table)) / |table| as real)
  }

  /** The league average lies between the rounded lowest and highest team
      averages. */
  lemma LeagueAverageBounds(table: seq<TeamAverage>, lo: real, hi: real)
    requires |table| > 0
    requires forall k :: 0 <= k < |table| ==> lo <= table[k].avg <= hi
    ensures Round1(lo) <= LeagueAverage(table) <= Round1(hi)
  {
    var n := |table| as real;
    SumBounds(AvgsOf(table), lo, hi);
    var mean := Sum(AvgsOf(table)) / n;
    QuotientBetween(Sum(AvgsOf(table)), n, lo, hi);
    Round1Monotone(lo, mean);
    Round1Monotone(mean, hi);
  }

  /** The result of `analyze_return_yards`. */
  datatype ReturnAnalysis = ReturnAnalysis(allowed: seq<TeamAverage>, leagueAvg: real, gained: seq<TeamAverage>)

  /** `analyze_return_yards`: averages allowed, their league mean, and
      averages gained. */
  function AnalyzeReturnYards(pbp: seq<Play>): (a: ReturnAnalysis)
    ensures a.allowed == Averages(pbp, KickingTeam)
    ensures a.gained == Averages(pbp, ReturningTeam)
    ensures a.leagueAvg == LeagueAverage(a.allowed)
    ensures a.leagueAvg >= 0.0
  {
    var allowed := Averages(pbp, KickingTeam);
    AllowedLeagueNonNegative(pbp);
    ReturnAnalysis(allowed, LeagueAverage(allowed), Averages(pbp, ReturningTeam))
  }

  /** The league average of an analysis is never negative. */
  lemma AllowedLeagueNonNegative(pbp: seq<Play>)
    ensures LeagueAverage(Averages(pbp, KickingTeam)) >= 0.0
  {
    var allowed := Averages(pbp, KickingTeam);
    if |allowed| > 0 {
      forall k | 0 <= k < |allowed| ensures 0.0 <= allowed[k].avg {
        var t := allowed[k].team;
        LookupDistinct(allowed, k);
        assert Lookup(allowed, t).Some?;
        assert allowed[k].avg == TeamAverageOf(pbp, KickingTeam, Games(pbp), t);
      }
      LeagueAverageNonNegative(allowed);
    }
  }

  /** In a table without repeated teams, a lookup finds the team's entry. */
  lemma LookupDistinct(table: seq<TeamAverage>, k: nat)
    requires k < |table|
    requires forall i, j :: 0 <= i < j < |table| ==> table[i].team != table[j].team
    ensures Lookup(table, table[k].team) == Some(table[k].avg)
  {
  }

  lemma LeagueAverageNonNegative(table: seq<TeamAverage>)
    requires |table| > 0
    requires forall k :: 0 <= k < |table| ==> 0.0 <= table[k].avg
    ensures LeagueAverage(table) >= 0.0
  {
    SumNonNegative(AvgsOf(table));
    var mean := Sum(AvgsOf(table)) / |table| as real;
    Round1Monotone(0.0, mean);
    Round1OfTenths(0);
  }

  /** `get_expected_return_yards`: the opponent's average allowed, or the
      league average; the defense itself is not consulted. */
  function ExpectedReturnYards(a: ReturnAnalysis, defense: string, opponent: string): (r: real)
    ensures Lookup(a.allowed, opponent).Some? ==> r == Lookup(a.allowed, opponent).value
    ensures Lookup(a.allowed, opponent).None? ==> r == a.leagueAvg
  {
    Lookup(a.allowed, opponent).GetOr(a.leagueAvg)
  }

  /** The expectation depends on the opponent only. */
  lemma DefenseNotConsulted(a: ReturnAnalysis, d1: string, d2: string, opponent: string)
    ensures ExpectedReturnYards(a, d1, opponent) == ExpectedReturnYards(a, d2, opponent)
  {
  }

  /** `get_defense_return_tendency`: the team's average gained, or the league
      average of yards allowed. */
  function DefenseReturnTendency(a: ReturnAnalysis, defense: string): (r: real)
    ensures Lookup(a.gained, defense).Some? ==> r == Lookup(a.gained, defense).value
    ensures Lookup(a.gained, defense).None? ==> r == a.leagueAvg
  {
    Lookup(a.gained, defense).GetOr(a.leagueAvg)
  }

  /** Every expectation of an analysis is non-negative. */
  lemma ExpectationsNonNegative(pbp: seq<Play>, defense: string, opponent: string)
    ensures ExpectedReturnYards(AnalyzeReturnYards(pbp), defense, opponent) >= 0.0
    ensures DefenseReturnTendency(AnalyzeReturnYards(pbp), defense) >= 0.0
  {
    var a := AnalyzeReturnYards(pbp);
    if Lookup(a.allowed, opponent).Some? {
      assert Lookup(a.allowed, opponent).value == TeamAverageOf(pbp, KickingTeam, Games(pbp), opponent);
    }
    if Lookup(a.gained, defense).Some? {
      assert Lookup(a.gained, defense).value == TeamAverageOf(pbp, ReturningTeam, Games(pbp), defense);
    }
  }

  // ---------------------------------------------------------------------
  // Return points
  // ---------------------------------------------------------------------

  /** Expected return points: one per ten expected yards, rounded. */
  function ReturnPoints(yards: real): (r: real)
    ensures -0.05 <= r - yards / 10.0 <= 0.05
  {
    Round1(yards / 10.0)
  }

  /** More expected yards never mean fewer points. */
  lemma ReturnPointsMonotone(y1: real, y2: real)
    requires y1 <= y2
    ensures ReturnPoints(y1) <= ReturnPoints(y2)
  {
    Round1Monotone(y1 / 10.0, y2 / 10.0);
  }

  /** The example matchups of `get_week_matchups`, defense first. */
  const ExampleMatchups: seq<(string, string)> :=
    [("MIN", "NYG"), ("PHI", "GB"), ("PIT", "ATL"), ("DEN", "SEA"), ("CIN", "NE")]

  /** One defense's projected return yards and points against its opponent. */
  datatype MatchupProjection = MatchupProjection(defense: string, opponent: string, yards: real, points: real)

  function ProjectMatchups(a: ReturnAnalysis, matchups: seq<(string, string)>): (r: seq<MatchupProjection>)
    ensures |r| == |matchups|
    ensures forall i :: 0 <= i < |r| ==>
      && r[i].defense == matchups[i].0 && r[i].opponent == matchups[i].1
      && r[i].yards == ExpectedReturnYards(a, matchups[i].0, matchups[i].1)
      && r[i].points == ReturnPoints(r[i].yards)
  {
    if |matchups| == 0 then []
    else
      var (d, o) := matchups[0];
      var y := ExpectedReturnYards(a, d, o);
      [MatchupProjection(d, o, y, ReturnPoints(y))] + ProjectMatchups(a, matchups[1..])
  }

  /** `get_week_matchups`: the example matchups projected, whatever the week. */
  function WeekMatchups(a: ReturnAnalysis, week: int): (r: seq<MatchupProjection>)
    ensures |r| == 5
    ensures forall i :: 0 <= i < 5 ==>
      && r[i].defense == ExampleMatchups[i].0 && r[i].opponent == ExampleMatchups[i].1
      && r[i].yards == ExpectedReturnYards(a, r[i].defense, r[i].opponent)
      && r[i].points == ReturnPoints(r[i].yards)
  {
    ProjectMatchups(a, ExampleMatchups)
  }

  // ---------------------------------------------------------------------
  // The copy in fantasy_projections.py
  // ---------------------------------------------------------------------

  /** The fixed fallback of the projection copy, in yards per game. */
  const DefaultReturnYards: real := 62.5

  /** `DefenseReturnAnalyzer.get_expected_return_yards` in the projections:
      the opponent's average allowed, or 62.5 yards. */
  function ProjectedReturnYards(allowed: seq<TeamAverage>, opponent: string): (r: real)
    ensures Lookup(allowed, opponent).Some? ==> r == Lookup(allowed, opponent).value
    ensures Lookup(allowed, opponent).None? ==> r == 62.5
  {
    Lookup(allowed, opponent).GetOr(DefaultReturnYards)
  }

  /** The two copies agree on a listed opponent; an unlisted one gets the
      computed league average from one and 62.5 from the other. */
  lemma CopiesAgreeOnListedOpponents(pbp: seq<Play>, defense: string, opponent: string)
    ensures var a := AnalyzeReturnYards(pbp);
      Lookup(a.allowed, opponent).Some? ==>
        ProjectedReturnYards(a.allowed, opponent) == ExpectedReturnYards(a, defense, opponent)
    ensures var a := AnalyzeReturnYards(pbp);
      Lookup(a.allowed, opponent).None? ==>
        ProjectedReturnYards(a.allowed, opponent) == 62.5
        && ExpectedReturnYards(a, defense, opponent) == a.leagueAvg
  {
  }

  /** The default's return points: 6.25 is an exact tie and rounds to the even
      tenth, 6.2. */
  lemma DefaultReturnPoints()
    ensures ReturnPoints(DefaultReturnYards) == 6.2
  {
  }
}
