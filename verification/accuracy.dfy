/**
 * Projection accuracy (accuracy_tracking.py): per-player differences and
 * accuracy percentages, per-position confidence widths from the spread of
 * past differences, and the bands they put around new projections.
 */
module Accuracy {
  import opened Wrappers
  import opened Rounding
  import opened Plays
  import Projections

  // ---------------------------------------------------------------------
  // One result
  // ---------------------------------------------------------------------

  function Abs(x: real): real { if x < 0.0 then -x else x }

  /** A saved projection. */
  datatype SavedProjection = SavedProjection(player: string, position: string, team: string, projected: real)

  /** One entry of a week's results. */
  datatype WeekResult = WeekResult(
    player: string,
    position: string,
    team: string,
    projected: real,
    actual: real,
    difference: real,
    accuracyPct: real)

  /** `round(actual - projected, 1)`. */
  function Difference(actual: real, projected: real): (r: real)
    ensures -0.05 <= r - (actual - projected) <= 0.05
  {
    Round1(actual - projected)
  }

  /** Swapping actual and projected negates the difference. */
  lemma DifferenceAntisymmetric(a: real, p: real)
    ensures Difference(p, a) == -Difference(a, p)
  {
    assert p - a == -(a - p);
    Round1Negate(a - p);
  }

  /** The divisor `max(projected, 1)`, never below one. */
  function Divisor(projected: real): (d: real)
    ensures d >= 1.0 && d >= projected
    ensures d == projected || d == 1.0
  {
    if projected > 1.0 then projected else 1.0
  }

  /** `round((1 - |actual - projected| / max(projected, 1)) * 100, 1)`. */
  function AccuracyPct(actual: real, projected: real): (r: real)
    ensures -0.05 <= r - (1.0 - Abs(actual - projected) / Divisor(projected)) * 100.0 <= 0.05
    ensures actual == projected ==> r == 100.0
    ensures r <= 100.0
  {
    var raw := (1.0 - Abs(actual - projected) / Divisor(projected)) * 100.0;
    Round1Monotone(raw, 100.0);
    Round1OfTenths(1000);
    assert actual == projected ==> raw == 100.0;
    Round1(raw)
  }

  /** A larger miss never gives a higher accuracy. */
  lemma AccuracyMonotone(a1: real, a2: real, p: real)
    requires Abs(a1 - p) <= Abs(a2 - p)
    ensures AccuracyPct(a2, p) <= AccuracyPct(a1, p)
  {
    var d := Divisor(p);
    assert Abs(a2 - p) / d - Abs(a1 - p) / d == (Abs(a2 - p) - Abs(a1 - p)) / d;
    Round1Monotone((1.0 - Abs(a2 - p) / d) * 100.0, (1.0 - Abs(a1 - p) / d) * 100.0);
  }

  /** A result row for a projection and its actual points. */
  function MakeResult(s: SavedProjection, actual: real): (r: WeekResult)
    ensures r.player == s.player && r.position == s.position && r.team == s.team
    ensures r.projected == s.projected && r.actual == actual
    ensures r.difference == Difference(actual, s.projected)
    ensures r.accuracyPct == AccuracyPct(actual, s.projected)
  {
    WeekResult(s.player, s.position, s.team, s.projected, actual,
      Difference(actual, s.projected), AccuracyPct(actual, s.projected))
  }

  /** `_calculate_actual_points`, which returns 0.0 for every player. */
  function PlaceholderActual(player: string, position: string): real {
    0.0
  }

  /** Results for saved projections, with actual points from `actual`. */
  function ResultsWith(saved: seq<SavedProjection>, actual: (string, string) -> real): (r: seq<WeekResult>)
    ensures |r| == |saved|
    ensures forall i :: 0 <= i < |r| ==> r[i] == MakeResult(saved[i], actual(saved[i].player, saved[i].position))
  {
    if |saved| == 0 then []
    else [MakeResult(saved[0], actual(saved[0].player, saved[0].position))] + ResultsWith(saved[1..], actual)
  }

  /** `fetch_actual_results` once the saved file is read: one result per saved
      projection, in order, scored against the placeholder. */
  function FetchActualResults(saved: seq<SavedProjection>): (r: seq<WeekResult>)
    ensures |r| == |saved|
    ensures forall i :: 0 <= i < |r| ==> r[i].actual == 0.0 && r[i].player == saved[i].player
  {
    ResultsWith(saved, PlaceholderActual)
  }

  /** With the placeholder, a projection of at least one point is 0% accurate
      and misses by its own size. */
  lemma PlaceholderResults(saved: seq<SavedProjection>, i: nat)
    requires i < |saved| && saved[i].projected >= 1.0
    ensures FetchActualResults(saved)[i].accuracyPct == 0.0
    ensures FetchActualResults(saved)[i].difference == -Round1(saved[i].projected)
  {
    var p := saved[i].projected;
    assert Abs(0.0 - p) / Divisor(p) == 1.0;
    Round1OfTenths(0);
    assert 0.0 == 0 as real / 10.0;
    Round1Negate(p);
    assert 0.0 - p == -p;
  }

  // ---------------------------------------------------------------------
  // Confidence widths
  // ---------------------------------------------------------------------

  function Mean(xs: seq<real>): real
    requires |xs| > 0
  {
    Sum(xs) / |xs| as real
  }

  /** The squared deviations from `m`. */
  function SquaredDeviations(xs: seq<real>, m: real): (r: seq<real>)
    ensures |r| == |xs|
    ensures forall i :: 0 <= i < |r| ==> r[i] == Square(xs[i] - m)
    ensures forall i :: 0 <= i < |r| ==> r[i] >= 0.0
  {
    if |xs| == 0 then [] else [Square(xs[0] - m)] + SquaredDeviations(xs[1..], m)
  }

  function Square(d: real): (r: real)
    ensures r >= 0.0
  {
    d * d
  }

  function Absolutes(xs: seq<real>): (r: seq<real>)
    ensures |r| == |xs|
    ensures forall i :: 0 <= i < |r| ==> r[i] == Abs(xs[i])
  {
    if |xs| == 0 then [] else [Abs(xs[0])] + Absolutes(xs[1..])
  }

  /** The population variance (`np.std` squared, `ddof=0`). */
  function Variance(xs: seq<real>): (v: real)
    requires |xs| > 0
    ensures v >= 0.0
  {
    var sq := SquaredDeviations(xs, Mean(xs));
    SumNonNegative(sq);
    Mean(sq)
  }

  /** One position's published widths. */
  datatype Confidence = Confidence(c68: real, c95: real, avgError: real)

  /** `68_pct = round(std, 1)`, `95_pct = round(2 * std, 1)`, which is the
      rounded root of four times the variance, and `avg_error`. The wider band
      is never narrower and is twice the narrower one up to a tenth. */
  function ConfidenceOf(ds: seq<real>): (c: Confidence)
    requires |ds| > 0
    ensures c.c68 == RoundedSqrt(Variance(ds))
    ensures c.c95 == RoundedSqrt(4.0 * Variance(ds))
    ensures c.avgError == Round1(Mean(Absolutes(ds)))
    ensures 0.0 <= c.c68 <= c.c95
    ensures -0.1 <= c.c95 - 2.0 * c.c68 <= 0.1
    ensures c.avgError >= 0.0
  {
    var v := Variance(ds);
    SqrtTenthsDouble(v);
    var abs := Absolutes(ds);
    SumNonNegative(abs);
    Round1Monotone(0.0, Mean(abs));
    Round1OfTenths(0);
    assert 0.0 == 0 as real / 10.0;
    Confidence(RoundedSqrt(v), RoundedSqrt(4.0 * v), Round1(Mean(abs)))
  }

  /** Projections that were all exact give zero-width bands. */
  lemma ExactHistoryGivesZeroWidth(ds: seq<real>)
    requires |ds| > 0
    requires forall i :: 0 <= i < |ds| ==> ds[i] == 0.0
    ensures ConfidenceOf(ds) == Confidence(0.0, 0.0, 0.0)
  {
    SumZero(ds);
    var sq := SquaredDeviations(ds, Mean(ds));
    SumZero(sq);
    assert Variance(ds) == 0.0;
    SumZero(Absolutes(ds));
    Round1OfTenths(0);
    assert 0.0 == 0 as real / 10.0;
  }

  function Positions(results: seq<WeekResult>): (r: seq<string>)
    ensures |r| == |results|
    ensures forall i :: 0 <= i < |r| ==> r[i] == results[i].position
  {
    if |results| == 0 then [] else [results[0].position] + Positions(results[1..])
  }

  /** The differences of one position's results, in order
      (`PositionDifferencesFilter` states which). */
  function PositionDifferences(results: seq<WeekResult>, position: string): (r: seq<real>)
    ensures |r| <= |results|
    ensures (exists i :: 0 <= i < |results| && results[i].position == position) ==> |r| > 0
  {
    if |results| == 0 then []
    else
      var rest := PositionDifferences(results[1..], position);
      assert (exists i :: 0 <= i < |results| && results[i].position == position) && results[0].position != position
        ==> exists i :: 0 <= i < |results[1..]| && results[1..][i].position == position by {
        if (exists i :: 0 <= i < |results| && results[i].position == position) && results[0].position != position {
          var i :| 0 <= i < |results| && results[i].position == position;
          assert results[1..][i - 1].position == position;
        }
      }
      if results[0].position == position then [results[0].difference] + rest else rest
  }

  /** The results of one position, in order. */
  function OfPosition(results: seq<WeekResult>, position: string): seq<WeekResult> {
    Filter(results, (x: WeekResult) => x.position == position)
  }

  /** The differences of results, in order. */
  function Differences(results: seq<WeekResult>): (ds: seq<real>)
    ensures |ds| == |results|
    ensures forall i :: 0 <= i < |ds| ==> ds[i] == results[i].difference
  {
    if |results| == 0 then [] else [results[0].difference] + Differences(results[1..])
  }

  /** A position's differences are the differences of exactly the results
      with that position, in order. */
  lemma {:induction false} PositionDifferencesFilter(results: seq<WeekResult>, position: string)
    ensures PositionDifferences(results, position) == Differences(OfPosition(results, position))
  {
    if |results| > 0 {
      PositionDifferencesFilter(results[1..], position);
      var rest := OfPosition(results[1..], position);
      if results[0].position == position {
        assert OfPosition(results, position) == [results[0]] + rest;
        assert ([results[0]] + rest)[1..] == rest;
      } else {
        assert OfPosition(results, position) == rest;
      }
    }
  }

  /** Splitting the results splits their per-position differences, in order. */
  lemma {:induction false} PositionDifferencesAppend(a: seq<WeekResult>, b: seq<WeekResult>, position: string)
    ensures PositionDifferences(a + b, position) == PositionDifferences(a, position) + PositionDifferences(b, position)
  {
    if |a| > 0 {
      assert (a + b)[1..] == a[1..] + b;
      PositionDifferencesAppend(a[1..], b, position);
    } else {
      assert a + b == b;
    }
  }

  /** `calculate_confidence_intervals` over every stored result: an entry for
      exactly the positions present, none at all without results. */
  function ConfidenceIntervals(results: seq<WeekResult>): (r: map<string, Confidence>)
    ensures |results| == 0 ==> r == map[]
    ensures forall pos :: pos in r <==> exists i :: 0 <= i < |results| && results[i].position == pos
    ensures forall pos :: pos in r ==> |PositionDifferences(results, pos)| > 0
    ensures forall pos :: pos in r ==> r[pos] == ConfidenceOf(PositionDifferences(results, pos))
  {
    var positions := Distinct(Positions(results));
    map pos | pos in positions :: ConfidenceOf(PositionDifferences(results, pos))
  }

  // ---------------------------------------------------------------------
  // Bands around projections
  // ---------------------------------------------------------------------

  /** The position label a projection carries. */
  function PositionName(pos: Projections.Position): string {
    match pos
    case QB => "QB"
    case RB => "RB"
    case WR => "WR"
    case TE => "TE"
    case K => "K"
    case DST => "DST"
  }

  datatype Bands = Bands(low68: real, high68: real, low95: real, high95: real)

  /** A projection and, when its position has widths, its bands. */
  datatype BandedProjection = BandedProjection(projection: Projections.ProjectedPlayer, bands: Option<Bands>)

  function BandsFor(p: real, c: Confidence): (b: Bands)
    ensures b.low68 == p - c.c68 && b.high68 == p + c.c68
    ensures b.low95 == p - c.c95 && b.high95 == p + c.c95
  {
    Bands(p - c.c68, p + c.c68, p - c.c95, p + c.c95)
  }

  /** The band columns of `display_projections_with_confidence`: projections
      are kept as they are, and only positions with widths get bands. */
  function ApplyBands(rows: seq<Projections.ProjectedPlayer>, conf: map<string, Confidence>): (r: seq<BandedProjection>)
    ensures |r| == |rows|
    ensures forall i :: 0 <= i < |r| ==> r[i].projection == rows[i]
    ensures forall i :: 0 <= i < |r| ==> (r[i].bands.Some? <==> PositionName(rows[i].position) in conf)
    ensures forall i :: 0 <= i < |r| && r[i].bands.Some? ==>
      r[i].bands.value == BandsFor(rows[i].points, conf[PositionName(rows[i].position)])
  {
    if |rows| == 0 then []
    else
      var name := PositionName(rows[0].position);
      var b := if name in conf then Some(BandsFor(rows[0].points, conf[name])) else None;
      [BandedProjection(rows[0], b)] + ApplyBands(rows[1..], conf)
  }

  /** Widths no band can invert: the 95% width is at least the 68% one,
      which is not negative. */
  ghost predicate ValidWidths(conf: map<string, Confidence>) {
    forall pos :: pos in conf ==> 0.0 <= conf[pos].c68 <= conf[pos].c95
  }

  /** Every width `calculate_confidence_intervals` publishes is valid. */
  lemma IntervalsValid(results: seq<WeekResult>)
    ensures ValidWidths(ConfidenceIntervals(results))
  {
  }

  /** With valid widths, every band is centred on the projection and the 95%
      band contains the 68% band. */
  lemma BandsNest(rows: seq<Projections.ProjectedPlayer>, conf: map<string, Confidence>, i: nat)
    requires ValidWidths(conf)
    requires i < |rows|
    requires ApplyBands(rows, conf)[i].bands.Some?
    ensures var b := ApplyBands(rows, conf)[i].bands.value;
      b.low95 <= b.low68 <= rows[i].points <= b.high68 <= b.high95
  {
  }
}
