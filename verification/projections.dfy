/**
 * The per-player combination of `get_week_projections` (fantasy_projections.py):
 * league scoring of the projected stats, the expected touchdown-length bonus for
 * offensive players, distance-based kicker points, and a return-yards bonus
 * for defenses.
 */
module Projections {
  import opened Wrappers
  import opened Rounding
  import opened Stats
  import opened Names
  import Scorers
  import ProjectionPatterns
  import ReturnYards
  import ScorerFacts

  /** The positions the projections cover. */
  datatype Position = QB | RB | WR | TE | K | DST

  predicate IsOffense(pos: Position) { pos == QB || pos == RB || pos == WR || pos == TE }

  /** One scraped projection row: the player (or team) name, its position and
      the projected stats. */
  datatype ScrapedProjection = ScrapedProjection(player: string, position: Position, stats: StatLine)

  /** A projection with its custom-scored points; `tdBonus` is present for
      offensive rows and `returnPoints` for defenses. */
  datatype ProjectedPlayer = ProjectedPlayer(
    player: string,
    position: Position,
    points: real,
    tdBonus: Option<real>,
    returnPoints: Option<real>)

  /** The historical tables the combination consults. */
  datatype PatternTables = PatternTables(
    td: map<string, ProjectionPatterns.TdRates>,
    fg: map<string, ProjectionPatterns.FgRates>)

  /** Projected touchdowns of all kinds. */
  function TotalTds(s: StatLine): real {
    Get(s, "passing_tds") + Get(s, "rushing_tds") + Get(s, "receiving_tds")
  }

  /** Expected return points of every defense: the analyzer's fixed league
      average of 62.5 yards, whatever the opponent. */
  function DefenseReturnPoints(): (r: real)
    ensures r == 6.2
  {
    ReturnYards.DefaultReturnPoints();
    ReturnYards.ReturnPoints(ReturnYards.DefaultReturnYards)
  }

  /** The combination for one row. An offensive row with projected touchdowns
      adds the rounded touchdown bonus and rounds again, without touchdowns it
      keeps the base score; a kicker's points come from the field-goal
      distance table, not from the kicker scorer; a defense adds 6.2 return
      points. A name whose conversion raises fails the whole row. */
  function ProjectPlayer(tables: PatternTables, p: ScrapedProjection): (r: Result<ProjectedPlayer, string>)
    ensures r.Success? ==> r.value.player == p.player && r.value.position == p.position
    ensures r.Failure? <==>
      ShortName(p.player) == IndexError && (p.position == K || (IsOffense(p.position) && TotalTds(p.stats) > 0.0))
    ensures r.Success? && IsOffense(p.position) && TotalTds(p.stats) <= 0.0 ==>
      r.value.points == Scorers.OffenseScore(p.stats) && r.value.tdBonus == Some(0.0)
    ensures r.Success? && IsOffense(p.position) && TotalTds(p.stats) > 0.0 ==>
      && r.value.tdBonus.Some?
      && ProjectionPatterns.PlayerTdBonus(tables.td, p.player, TotalTds(p.stats)) == Success(r.value.tdBonus.value)
      && r.value.points == Round1(Scorers.OffenseScore(p.stats) + r.value.tdBonus.value)
    ensures r.Success? && p.position == K ==>
      ProjectionPatterns.KickerPoints(tables.fg, p.player, Get(p.stats, "fg_made"), Get(p.stats, "pat_made"))
        == Success(r.value.points)
    ensures r.Success? && p.position == DST ==>
      r.value.points == Round1(Scorers.DefenseScore(p.stats) + 6.2) && r.value.returnPoints == Some(6.2)
  {
    if p.position == K then KickerProjection(tables, p)
    else if p.position == DST then DefenseProjection(p)
    else OffenseProjection(tables, p)
  }

  /** A kicker row: the distance-table points, or the conversion's failure. */
  function KickerProjection(tables: PatternTables, p: ScrapedProjection): (r: Result<ProjectedPlayer, string>)
    requires p.position == K
    ensures r.Success? ==> r.value.player == p.player && r.value.position == K
    ensures r.Failure? <==> ShortName(p.player) == IndexError
    ensures r.Success? ==>
      ProjectionPatterns.KickerPoints(tables.fg, p.player, Get(p.stats, "fg_made"), Get(p.stats, "pat_made"))
        == Success(r.value.points)
  {
    var pts := ProjectionPatterns.KickerPoints(tables.fg, p.player, Get(p.stats, "fg_made"), Get(p.stats, "pat_made"));
    if pts.Failure? then Failure(pts.error)
    else Success(ProjectedPlayer(p.player, K, pts.value, None, None))
  }

  /** A defense row: the defensive score plus the return points. */
  function DefenseProjection(p: ScrapedProjection): (r: Result<ProjectedPlayer, string>)
    requires p.position == DST
    ensures r.Success? && r.value.player == p.player && r.value.position == DST
    ensures r.value.points == Round1(Scorers.DefenseScore(p.stats) + 6.2) && r.value.returnPoints == Some(6.2)
  {
    var ret := DefenseReturnPoints();
    Success(ProjectedPlayer(p.player, DST, Round1(Scorers.DefenseScore(p.stats) + ret), None, Some(ret)))
  }

  /** An offensive row: the base score, plus the touchdown bonus when
      touchdowns are projected. */
  function OffenseProjection(tables: PatternTables, p: ScrapedProjection): (r: Result<ProjectedPlayer, string>)
    requires IsOffense(p.position)
    ensures r.Success? ==> r.value.player == p.player && r.value.position == p.position
    ensures r.Failure? <==> ShortName(p.player) == IndexError && TotalTds(p.stats) > 0.0
    ensures r.Success? && TotalTds(p.stats) <= 0.0 ==>
      r.value.points == Scorers.OffenseScore(p.stats) && r.value.tdBonus == Some(0.0)
    ensures r.Success? && TotalTds(p.stats) > 0.0 ==>
      && r.value.tdBonus.Some?
      && ProjectionPatterns.PlayerTdBonus(tables.td, p.player, TotalTds(p.stats)) == Success(r.value.tdBonus.value)
      && r.value.points == Round1(Scorers.OffenseScore(p.stats) + r.value.tdBonus.value)
  {
    var base := Scorers.OffenseScore(p.stats);
    var t := TotalTds(p.stats);
    if t > 0.0 then
      var bonus := ProjectionPatterns.PlayerTdBonus(tables.td, p.player, t);
      if bonus.Failure? then Failure(bonus.error)
      else Success(ProjectedPlayer(p.player, p.position, Round1(base + bonus.value), Some(bonus.value), None))
    else Success(ProjectedPlayer(p.player, p.position, base, Some(0.0), None))
  }

  /** `get_week_projections`: every row combined, in order; the first row
      whose name conversion raises aborts the week. */
  function WeekProjections(tables: PatternTables, rows: seq<ScrapedProjection>): (r: Result<seq<ProjectedPlayer>, string>)
    ensures r.Success? <==> forall i :: 0 <= i < |rows| ==> ProjectPlayer(tables, rows[i]).Success?
    ensures r.Success? ==> |r.value| == |rows|
    ensures r.Success? ==> forall i :: 0 <= i < |rows| ==> r.value[i] == ProjectPlayer(tables, rows[i]).value
  {
    if |rows| == 0 then Success([])
    else
      var first := ProjectPlayer(tables, rows[0]);
      var rest := WeekProjections(tables, rows[1..]);
      if first.Failure? then Failure(first.error)
      else if rest.Failure? then Failure(rest.error)
      else Success([first.value] + rest.value)
  }

  /** Names as the scraper produces them (stripped) never abort a week. */
  lemma StrippedNamesProject(tables: PatternTables, rows: seq<ScrapedProjection>)
    requires forall i :: 0 <= i < |rows| ==> Stripped(rows[i].player)
    ensures WeekProjections(tables, rows).Success?
  {
    forall i | 0 <= i < |rows| ensures ProjectPlayer(tables, rows[i]).Success? {
      if ' ' in rows[i].player {
        StrippedNamesConvert(rows[i].player);
      }
    }
  }

  /** A bonus that rounds to nothing leaves an offensive score unchanged: the
      base score already has one decimal. */
  lemma ZeroBonusKeepsBase(tables: PatternTables, p: ScrapedProjection)
    requires IsOffense(p.position)
    requires ProjectPlayer(tables, p).Success?
    requires ProjectPlayer(tables, p).value.tdBonus == Some(0.0)
    ensures ProjectPlayer(tables, p).value.points == Scorers.OffenseScore(p.stats)
  {
  }

  /** A defense with no projected stats scores the 1.0 of the 14-20 points
      allowed row, plus 6.2 return points. */
  lemma DefenseProjectionExample()
    ensures ProjectPlayer(PatternTables(map[], map[]), ScrapedProjection("Eagles", DST, map[])).value.points == 7.2
  {
    var p := ScrapedProjection("Eagles", DST, map[]);
    assert ProjectPlayer(PatternTables(map[], map[]), p) == DefenseProjection(p);
    ScorerFacts.DefenseEmpty();
    Round1OfTenths(72);
    assert 1.0 + 6.2 == 72 as real / 10.0;
  }
}
