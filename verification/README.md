# Fantasy points engine: a Dafny model

This project models the deterministic core of a fantasy-football points engine.
It covers the league's custom scoring rules and the expected-value adjustments
that sit on top of them. Each copy of a rule that the repository keeps is
modelled as its own pure function, so lemmas can state where the copies agree
and where they differ.

- **Projection scorers** (`scorers.dfy`, `scorer_facts.dfy`, `stats.dfy`). The
  offensive, kicker and defense scorers of `fantasy_projections.py` map a stat
  dictionary (`map<string, real>`) to points. They apply linear rates and then
  bonus tiers, and round to one decimal. The passing yardage bonus is exclusive,
  while the rushing and receiving bonuses stack. The defense reads two
  first-match range tables, with defaults for a missing points-allowed or
  yards-allowed value.
- **Game scorer** (`game_scorer.dfy`, `game_facts.dfy`). This is one player's
  actual score for one week in `saquon_scorer.py`, computed from weekly stat
  rows and play-by-play touchdowns:
  - the touchdown length bonus is awarded per touchdown and never stacks;
  - a linear term counts only when its stat is positive, and sacks count only
    for a QB;
  - lost fumbles and two-point conversions are gathered from several columns;
  - the score is not rounded.
- **Historical patterns**, in two copies:
  - `patterns.dfy` models `td_pattern_analyzer.py`;
  - `projection_patterns.dfy` models `HistoricalPatternAnalyzer` in
    `fantasy_projections.py`.

  Both build per-player touchdown-length fractions and per-kicker
  field-goal-distance fractions, with minimum-sample cut-offs. Both turn
  fractional projected counts into expected bonus points. The copies differ in
  their kicker fallback (3.2 against 3.3 points per field goal), in their
  distance bands (five against four), and in their name lookup. One uses the
  exact key; the other converts "First Last" to "F.Last" (`names.dfy`).
- **Projection combination** (`projections.dfy`). This is the per-row logic of
  `get_week_projections`:
  - offense gets the base score plus the expected touchdown bonus;
  - kickers use the distance table;
  - defenses add the return points of the fixed 62.5-yard league average.
- **Lineups** (`lineup.dfy`). These are the greedy fills of
  `get_optimal_lineup` and `get_optimal_lineup_from_roster`. Players are
  sorted by projected points, highest first. Each takes its position's slot
  until that slot is full, skipping names already used. The best remaining RB,
  WR or TE takes FLEX.
- **Return yards** (`return_yards.dfy`). `return_yards_analyzer.py` computes
  kickoff and punt return yards per game. It credits them to the kicking team
  ("allowed") or to the returning team ("gained"), with a league average as the
  fallback. The module also holds the copy inside `fantasy_projections.py`,
  whose fallback is a fixed 62.5.
- **Accuracy** (`accuracy.dfy`). This covers three parts of
  `accuracy_tracking.py`:
  - the per-result difference and accuracy percentage;
  - the per-position confidence widths, computed from the spread of past
    differences;
  - the bands those widths put around new projections.
- **Season touchdown-bonus counter** (`td_bonus_counter.dfy`). This is
  `get_player_td_bonuses` in `get_nfl_data.py`, which stacks the 40+ and 50+
  bonuses. The module sets it against the per-touchdown rule.

Stat values are reals. Python's `round(x, 1)` is modelled as exact
round-half-even to tenths (`Rounding.Round1`). Errors that the source raises are
modelled as `Result` failures: an `IndexError` from the name conversion aborts
the whole week of projections. Play-by-play data, weekly stat tables and scraped
projections are passed in as sequences of records.

## Model

| member | source | states |
|---|---|---|
| Scorers.PassingYardageBonus | fantasy_projections.py:214-221 | The passing bonus is exclusive: 5 exactly at 400+ yards, 3 exactly for 300-399, 0 exactly below 300; the tiers never add up |
| Scorers.StackedYardageBonus | fantasy_projections.py:232-253 | The rushing and receiving bonuses stack: 0 below 100 yards, 5 for 100-199, 5 + 10 = 15 from 200 |
| Scorers.OffenseScore | fantasy_projections.py:207-261 | The offensive score is the rounded sum of every present stat times its rate plus the yardage bonuses; an absent key contributes nothing |
| ScorerFacts.OffenseIgnoresUnknownKeys | fantasy_projections.py:207-261 | Stat names the scorer does not know never change the score |
| ScorerFacts.OffenseScoreOfParts | fantasy_projections.py:207-261 | The score depends only on the linear points and the yardage bonuses of a line |
| ScorerFacts.SameYardageBonuses | fantasy_projections.py:218-253 | The bonuses read only passing_yards, rushing_yards and receiving_yards |
| ScorerFacts.OffenseEmpty | fantasy_projections.py:207-261 | An empty projection scores 0 |
| ScorerFacts.RushingBonusesStack | fantasy_projections.py:232-241 | 150 rushing yards score 15 + 5 = 20 and 250 yards score 25 + 15 = 40 |
| ScorerFacts.PassingBonusExclusive | fantasy_projections.py:214-221 | 350 passing yards score 14 + 3 = 17 and 420 yards score 16.8 + 5 = 21.8, with no 3-point bonus on top |
| Stats.GetOr | fantasy_projections.py:348 | `dict.get(key, default)`: the stored value when the key is present, the default otherwise |
| Stats.LinearScale | fantasy_projections.py:339-345 | The linear part of any rate table is homogeneous: scaling every stat by c scales the points by c |
| Stats.LinearIgnoresOtherKeys | fantasy_projections.py:339-345 | Two stat lines that agree on a table's keys get the same linear points |
| Stats.LinearRestrict | fantasy_projections.py:339-345 | Dropping the keys a table does not read leaves its linear points unchanged |
| Stats.LinearEmpty | fantasy_projections.py:339-345 | With no stats at all, every rate table gives 0 linear points |
| Stats.LinearAppend | fantasy_projections.py:207-261 | The linear points of two tables read one after the other add up |
| Scorers.KickerScore | fantasy_projections.py:276-301 | As written: with no `fg` or with `fg_0_19` present, PATs ×1, the four sub-50 bands ×3 and 50+ ×5; whenever `fg` is present and `fg_0_19` absent, the flat 3.2 per field goal is added on top of whatever bands are reported (only the flat rate when none is) |
| Scorers.KickerDoubleCount | fantasy_projections.py:295-299 | With `fg` = 2 and one 20-29 and one 30-39 yard field goal, the bands give 6.0 and the flat 3.2 × 2 is added on top: 12.4 |
| Scorers.KickerScoreIntended | fantasy_projections.py:295-299 | Corrected: the bands when any band is reported, otherwise the flat 3.2 per field goal, never both |
| Scorers.KickerScoresAgree | fantasy_projections.py:276-301 | The written and corrected scorers agree whenever `fg` is absent, `fg_0_19` is present, or no band is reported |
| Scorers.FirstMatchFrom | fantasy_projections.py:349-352 | The scan stops at the first row whose range holds the value, and no earlier row holds it |
| Scorers.TableBonus | fantasy_projections.py:349-359 | A table adds the points of the first matching row, or 0 when no row matches |
| Scorers.DisjointTableBonus | fantasy_projections.py:320-332 | In a table of non-overlapping rows, any matching row is the one that scores |
| Scorers.DefenseTablesDisjoint | fantasy_projections.py:320-332 | The points-allowed and yards-allowed tables have non-overlapping rows |
| Scorers.DefenseScore | fantasy_projections.py:334-361 | The defense score is the rounded sum of the seven linear stats, one points-allowed row (default 20) and one yards-allowed row (default 300) |
| Scorers.DefenseLinearUnfold | fantasy_projections.py:339-345 | Missing defensive stats count 0; the rates are 1, 2, 2, 1, 2, 6 and 2 |
| ScorerFacts.DefenseEmpty | fantasy_projections.py:347-358 | With no stats the defaults score +1 (20 points allowed) and +0 (300 yards): 1.0 |
| ScorerFacts.DefenseExample | fantasy_projections.py:334-361 | 3 sacks, 1 interception, 17 points and 250 yards allowed score 3 + 2 + 1 + 0 = 6.0 |
| ScorerFacts.DefenseGapsScoreZero | fantasy_projections.py:349-359 | A value in no row adds 0: 6.5 points, more than 100 points, or more than 99 yards allowed |
| GameScorer.TdLengthBonus | saquon_scorer.py:85-100 | Each touchdown earns 5 exactly when it is a run or pass of 50+ yards, 3 exactly for 40-49, and 0 otherwise, including every other play type |
| GameScorer.BonusDetails | saquon_scorer.py:102-108 | Each listed bonus is 3 or 5, and the list is no longer than the touchdowns; which touchdowns are listed, and with what, is pinned by BonusDetailsOfOne and BonusDetailsAppend |
| GameScorer.BonusDetailsOfOne | saquon_scorer.py:102-108 | One touchdown is listed, with its yards, play type and bonus, exactly when its bonus is positive |
| GameScorer.BonusDetailsAppend | saquon_scorer.py:102-108 | The breakdown keeps play order: a split list lists its parts one after the other |
| GameScorer.DetailsAccountForBonus | saquon_scorer.py:102-108 | The listed details add up to the whole bonus |
| GameScorer.TdBonusSumAppend | saquon_scorer.py:85-108 | The weekly bonus is additive over touchdowns, one touchdown at a time |
| GameScorer.WeeklyTdBonuses | saquon_scorer.py:71-110 | No touchdowns give (0, {}); otherwise the week, the listed details and a total equal to their sum |
| GameScorer.TwoLongTouchdowns | saquon_scorer.py:85-108 | A 45-yard run and a 55-yard pass touchdown earn 3 + 5 = 8 |
| GameScorer.WeeklyYardageBonuses | saquon_scorer.py:112-133 | Rushing and receiving tiers stack as in the projection scorer, so the total lies in [0, 30] |
| GameScorer.WeeklyPassingBonus | saquon_scorer.py:135-147 | The weekly passing bonus equals the projection scorer's exclusive tier |
| GameScorer.TwoPointConversions | saquon_scorer.py:149-162 | The NaN-as-0 sum of the three two-point columns over the rows is non-negative when the cells are |
| GameScorer.TwoPointConversionsAppend | saquon_scorer.py:158-160 | The conversions are additive over the rows of a player-week, so every row counts, not only the first |
| GameScorer.TwoPointConversionsOfRow | saquon_scorer.py:152-160 | One row contributes the sum of its three two-point columns, a missing or NaN cell counting 0 |
| GameScorer.PositivePart | saquon_scorer.py:193-197 | A fumble column contributes its own value when positive and 0 otherwise: the result is 0 exactly when the value is not positive |
| GameScorer.FumblesLost | saquon_scorer.py:190-206 | Lost fumbles are the sum of the positive values of the four fumble columns when that sum is positive, and the play-by-play count otherwise; 0 exactly when no column is positive and the play-by-play count is 0 |
| GameScorer.Guarded | saquon_scorer.py:219-281 | A linear term counts stat × rate only when the stat is positive |
| GameScorer.WeeklyScore | saquon_scorer.py:164-303 | No row for the player-week gives no game and 0 points; otherwise linear terms (sacks only for a QB) plus the passing, touchdown-length and yardage bonuses, unrounded |
| GameFacts.ScorersAgreeExceptSacks | saquon_scorer.py:214-297 | On non-negative stats without two-point conversions, the game score without its touchdown-length bonus, rounded, equals the projection scorer on the same stats, except that a non-QB's sacks are not charged |
| GameFacts.OutcomeAgreesExceptTdBonus | saquon_scorer.py:214-297 | Any scored outcome whose score is the game linear points plus the passing, touchdown-length and stacked bonuses agrees with the projection scorer once the touchdown-length bonus (and a non-QB's sacks) is taken off, up to rounding |
| GameFacts.WeeklyScoreAgreesExceptTdBonus | saquon_scorer.py:214-297 | For a scored week with non-negative stats and no two-point conversions, the projection scorer on the week's stats is the game score less its touchdown-length bonus, and less the sacks for a non-QB, rounded |
| GameFacts.RushingWeekExample | saquon_scorer.py:164-303 | A non-QB week of 20 carries, 150 yards, a short rushing touchdown, 5 catches and 50 receiving yards scores 40.0 |
| TdBonusCounter.PlayerTdBonuses | get_nfl_data.py:12-37 | None exactly when the player has no touchdown; otherwise the total, the 40+ count and the 50+ count are those of the player's touchdowns (a 50+ touchdown is in both, 50+ ≤ 40+ ≤ total), and the bonus is 3 per 40+ plus 5 per 50+ |
| TdBonusCounter.StackingExceedsPerTd | get_nfl_data.py:26-29 | Over run and pass touchdowns, the stacking counter awards exactly 3 more than the per-touchdown rule for every 50+ touchdown |
| TdBonusCounter.CounterExceedsPerTd | get_nfl_data.py:16-29 | For a player whose touchdowns are runs or passes, the counter's bonus is the per-touchdown bonus of those touchdowns plus 3 per 50+ touchdown |
| TdBonusCounter.LongTouchdownContrast | get_nfl_data.py:16-37 | A player with one 55-yard rushing touchdown gets counts 1, 1, 1 and 8 points from the counter, against 5 under the per-touchdown rule |
| Patterns.TdBandsFit | td_pattern_analyzer.py:40-42 | The 40-49 and 50+ bands are disjoint, so their counts fit within the total |
| Patterns.TdPatternOf | td_pattern_analyzer.py:35-55 | The pattern counts all the player's touchdowns and each band, each fraction is its band's count over the total, the average length is the mean yards, and both fractions lie in [0, 1] and sum to at most 1 |
| Patterns.AnalyzeTdPatterns | td_pattern_analyzer.py:22-55 | A pattern exists exactly for the players with at least 3 touchdowns, and it is the pattern of their touchdowns |
| Patterns.FgBandsPartition | td_pattern_analyzer.py:84-91 | The five distance bands partition the made field goals |
| Patterns.SharesOfPartition | td_pattern_analyzer.py:100-104 | Five counts that partition the total give shares in [0, 1] that sum to 1 |
| Patterns.FgPatternOf | td_pattern_analyzer.py:79-106 | Each band count is the number of made kicks at that distance, each share is its count over the made total, the average distance is the mean, the counts add up to the total and the shares to 1 |
| Patterns.AnalyzeFgPatterns | td_pattern_analyzer.py:65-106 | A pattern exists exactly for the named kickers with at least 5 made field goals; it is the pattern of their made kicks |
| Patterns.ExpectedTdBonus | td_pattern_analyzer.py:110-128 | A listed player gets round(t·(3·p40 + 5·p50), 1); an unlisted one gets round(0.3·t, 1) from the 5% / 3% league fractions |
| Patterns.TdBonusLinear | td_pattern_analyzer.py:122-126 | Before rounding, the expectation is additive and homogeneous in the projected touchdowns |
| Patterns.TdBonusBounds | td_pattern_analyzer.py:122-128 | With valid fractions and t ≥ 0, the unrounded expectation lies in [0, 5t] |
| Patterns.FewTdsUseLeagueAverage | td_pattern_analyzer.py:110-128 | A player with fewer than 3 touchdowns gets the league-average expectation |
| Patterns.Distribute | td_pattern_analyzer.py:142-149 | With valid shares, the expected field goals over the bands add up to the projection |
| Patterns.ExpectedFgPoints | td_pattern_analyzer.py:130-158 | A listed kicker's own shares, otherwise 3.2 per projected field goal, rounded |
| Patterns.LeagueFgPoints | td_pattern_analyzer.py:132-140 | The 5/20/35/30/10% fallback shares are valid and worth exactly 3.2 points per field goal |
| Patterns.FgPointsBounds | td_pattern_analyzer.py:152-158 | With valid shares and fgs ≥ 0, the unrounded points lie in [3·fgs, 5·fgs] |
| ProjectionPatterns.AnalyzeTdRates | fantasy_projections.py:31-50 | The projection copy keeps fractions for exactly the players with at least 3 touchdowns |
| ProjectionPatterns.TdTablesAgree | fantasy_projections.py:31-50 | The two touchdown tables list the same players with the same fractions |
| ProjectionPatterns.FourBandsPartition | fantasy_projections.py:67-74 | The four bands partition the made field goals, and the 0-29 band merges 0-19 and 20-29 |
| ProjectionPatterns.FgRatesOf | fantasy_projections.py:67-74 | Each of the four fractions is its band's count (under 30, 30-39, 40-49, 50+) over the made total; they lie in [0, 1] and sum to 1 |
| ProjectionPatterns.AnalyzeFgRates | fantasy_projections.py:52-74 | Fractions exist exactly for the named kickers with at least 5 made field goals, and they are valid |
| ProjectionPatterns.FgTablesAgree | fantasy_projections.py:52-74 | The four-band table lists the same kickers as the five-band table, with its two shortest shares merged |
| ProjectionPatterns.PlayerTdBonus | fantasy_projections.py:76-89 | A name with a space is looked up as "F.Last" and uses that pattern's fractions; otherwise round(0.3·t, 1). It fails exactly when the conversion raises, which a stripped name never does |
| ProjectionPatterns.ExactKeyLookupsDiffer | fantasy_projections.py:76-89 | A name without a space that has a pattern gets its own fractions from the exact-key copy but the league average from this one |
| ProjectionPatterns.KickerPoints | fantasy_projections.py:91-108 | PATs plus the converted name's four-band expectation, or 3.3 per field goal without a pattern, rounded; it fails exactly when the conversion raises |
| ProjectionPatterns.KickerPointsBounds | fantasy_projections.py:101-103 | With valid fractions and fgs ≥ 0, the unrounded field-goal points lie in [3·fgs, 5·fgs] |
| ProjectionPatterns.FallbacksDiffer | fantasy_projections.py:106-108 | Two projected field goals by an unknown kicker earn 6.6 here and 6.4 in the other copy |
| Names.Words | fantasy_projections.py:80 | `split()` yields non-empty words without whitespace which, written one after the other, are exactly the non-whitespace characters of the string |
| Names.WordsSplit | fantasy_projections.py:80 | A whitespace character splits a string's words: the words of `a + c + b` are those of `a` followed by those of `b` |
| Names.ShortName | fantasy_projections.py:79-81 | A name without a space is not converted; a name with a space raises `IndexError` exactly when it has fewer than two words, and is otherwise converted to its first word's initial, a dot and its second word |
| Names.StrippedNamesConvert | fantasy_projections.py:79-81 | A stripped name with a space always has two words, so the conversion never raises |
| Names.TwoWordName | fantasy_projections.py:78-81 | "First Last" is looked up as "F.Last" |
| Names.UnstrippedNameRaises | fantasy_projections.py:79-81 | "Joe " has a space but only one word, so the conversion raises |
| Projections.DefenseReturnPoints | fantasy_projections.py:599-603 | Every defense gets the 62.5-yard league average's return points, round(6.25, 1) = 6.2 |
| Projections.OffenseProjection | fantasy_projections.py:552-568 | Without projected touchdowns the points are the base score and the bonus is 0; with them, the name-converted bonus is added and the sum rounded; it fails exactly when the lookup raises |
| Projections.KickerProjection | fantasy_projections.py:576-581 | Kicker points come from the distance table with fg_made and pat_made, not from the kicker scorer |
| Projections.DefenseProjection | fantasy_projections.py:592-607 | Defense points are round(defense score + 6.2, 1), whatever the opponent |
| Projections.ProjectPlayer | fantasy_projections.py:547-607 | Each row is combined by its position's rule and keeps its name and position; it fails exactly for a raising name conversion on a kicker or an offensive row with touchdowns |
| Projections.WeekProjections | fantasy_projections.py:539-611 | The week succeeds exactly when every row does, and then holds every row's projection in order |
| Projections.StrippedNamesProject | fantasy_projections.py:539-611 | Rows with stripped names never abort the week |
| Projections.ZeroBonusKeepsBase | fantasy_projections.py:560-568 | An offensive row whose bonus is 0 keeps its base score |
| Projections.DefenseProjectionExample | fantasy_projections.py:592-605 | A defense without projected stats scores 1.0 + 6.2 = 7.2 |
| Lineup.Insert | fantasy_projections.py:626 | Insertion adds exactly the new player to the multiset |
| Lineup.InsertDescending | fantasy_projections.py:626 | Insertion keeps a list sorted by descending points |
| Lineup.SortDesc | fantasy_projections.py:626 | The sort is a permutation of the players in descending order of points |
| Lineup.AddPick | fantasy_projections.py:639-650 | A placement extends its own slot and no other, and adds its name to the used names |
| Lineup.FirstFlex | fantasy_projections.py:653-658 | The FLEX candidate is the first unused RB, WR or TE; everyone before it is used or not eligible |
| Lineup.PlaceStarters | fantasy_projections.py:632-650 | The starter pass places only fitting players from the list, never a name twice, keeps each slot in descending order, leaves every passed-over player outranked, and places no one in FLEX |
| Lineup.Greedy | fantasy_projections.py:625-658 | Every pick is an input player of a fitting position; names are distinct; slots respect their caps and are descending; every eligible player left out is used or outranked by a full slot; the FLEX player's own starter slot is full of players projected at least as high |
| Lineup.FlexAfterStarters | fantasy_projections.py:632-658 | The first unused RB, WR or TE after the starter pass goes to FLEX only because its own starter slot is full of players projected at least as high |
| Lineup.OptimalLineup | fantasy_projections.py:613-660 | QB 1, RB 2, WR 2, TE 1 and FLEX 1 (RB, WR or TE) with K and DEF empty, plus all of Greedy's guarantees, including that FLEX only takes a player whose own starter slot is already full of players projected at least as high |
| Lineup.SlotNamesDistinct | fantasy_projections.py:634-650 | Two entries of one slot never share a name |
| Lineup.CrossSlotDistinct | fantasy_projections.py:634-650 | Entries of two different slots never share a name |
| Lineup.RosterLineup | fantasy_projections.py:765-816 | Each key holds a roster player of a fitting position; RB1 ≥ RB2 and WR1 ≥ WR2; no name fills two keys; every roster player left out is used or outranked by the key that stopped it; a filled FLEX means the last key of its position (RB2, WR2 or TE) is filled and projects at least as high |
| Lineup.RosterFlex | fantasy_projections.py:778-814 | A filled FLEX key means the last key of the FLEX player's position (RB2, WR2 or TE) is filled with a player projected at least as high |
| Lineup.RosterMembers | fantasy_projections.py:778-808 | Every filled key holds a placed roster player that fits the key's slot |
| Lineup.RosterNames | fantasy_projections.py:775-814 | The lineup's names are exactly the used names |
| Lineup.RosterDistinct | fantasy_projections.py:778-814 | No name fills two keys |
| Lineup.RosterOutranked | fantasy_projections.py:778-814 | Every roster player is in the lineup or outranked at the last key of its slot |
| ReturnYards.CreditedTeam | return_yards_analyzer.py:36-41 | A play credits a team exactly when it is a kickoff or punt with a positive, known return and the crediting team is known |
| ReturnYards.TeamReturnYards | return_yards_analyzer.py:36-41 | A team's credited return yards are never negative; that they are the sum of its credited returns is TeamReturnYardsOfOne with TeamReturnYardsAppend |
| ReturnYards.TeamReturnYardsOfOne | return_yards_analyzer.py:36-41 | One play adds its return yards to the team it credits and nothing to any other team |
| ReturnYards.TeamReturnYardsAppend | return_yards_analyzer.py:36-41 | Credited totals add up over any split of the plays |
| ReturnYards.CreditedIffPositive | return_yards_analyzer.py:36-41 | A team's total is positive exactly when some play credits it |
| ReturnYards.Credits | return_yards_analyzer.py:36-41 | The credited teams are exactly the teams some play credits |
| ReturnYards.Games | return_yards_analyzer.py:44 | Grouping lists each game of the data exactly once |
| ReturnYards.GamesPlayed | return_yards_analyzer.py:45-47 | A team's count is at most two per listed game |
| ReturnYards.GamesPlayedOfOne | return_yards_analyzer.py:45-47 | One game adds one to its home team and one to its away team, and nothing to any other team |
| ReturnYards.GamesPlayedAppend | return_yards_analyzer.py:45-47 | Game counts add up over any split of the games |
| ReturnYards.PlayedIffListed | return_yards_analyzer.py:44-47 | A team has played exactly when it is the home or away team of some game |
| ReturnYards.Lookup | return_yards_analyzer.py:83-84 | A lookup succeeds exactly when the team has an entry, and returns that entry's value |
| ReturnYards.TeamAverageOf | return_yards_analyzer.py:52-53 | A team's average is its return yards divided by its games played, rounded to within 0.05, and never negative |
| ReturnYards.PlayedTeams | return_yards_analyzer.py:50-51 | The teams kept are exactly the listed ones with at least one game, in order, and without repeats when the list has none |
| ReturnYards.AveragesOf | return_yards_analyzer.py:50-53 | The table has an entry exactly for the listed teams with a game, and it holds their rounded per-game average |
| ReturnYards.AveragesOfDistinct | return_yards_analyzer.py:50-53 | Teams listed once get one entry each |
| ReturnYards.Averages | return_yards_analyzer.py:32-53 | A team has an entry exactly when a play credits it and it played a game; the entry is its average and no team appears twice |
| ReturnYards.LeagueAverage | return_yards_analyzer.py:56-59 | The league average stays 0 without teams; otherwise it is within 0.05 of the mean of the team averages |
| ReturnYards.LeagueAverageBounds | return_yards_analyzer.py:56-59 | The league average lies between the rounded lowest and highest team average |
| ReturnYards.AnalyzeReturnYards | return_yards_analyzer.py:22-77 | Allowed and gained tables computed the same way from the kicking and returning team, and a non-negative league average of the allowed table |
| ReturnYards.AllowedLeagueNonNegative | return_yards_analyzer.py:56-59 | The league average is never negative |
| ReturnYards.LookupDistinct | return_yards_analyzer.py:83-84 | In a table without repeats, a lookup finds the team's own entry |
| ReturnYards.ExpectedReturnYards | return_yards_analyzer.py:79-87 | The opponent's allowed average when it has one, otherwise the league average |
| ReturnYards.DefenseNotConsulted | return_yards_analyzer.py:79-87 | The defense argument never changes the expectation |
| ReturnYards.DefenseReturnTendency | return_yards_analyzer.py:89-93 | The defense's gained average when it has one, otherwise the league average |
| ReturnYards.ExpectationsNonNegative | return_yards_analyzer.py:79-93 | Every expectation of an analysis is non-negative |
| ReturnYards.ReturnPoints | return_yards_analyzer.py:137 | Expected return points are within 0.05 of one point per ten yards |
| ReturnYards.ReturnPointsMonotone | return_yards_analyzer.py:137 | More expected yards never mean fewer points |
| ReturnYards.ProjectMatchups | return_yards_analyzer.py:131-138 | Each matchup keeps its defense and opponent, and gets the opponent's expected yards and their points |
| ReturnYards.WeekMatchups | return_yards_analyzer.py:119-140 | The five example matchups are projected, whatever the week |
| ReturnYards.ProjectedReturnYards | fantasy_projections.py:157-161 | The projection copy returns the opponent's allowed average, or the fixed 62.5 |
| ReturnYards.CopiesAgreeOnListedOpponents | fantasy_projections.py:157-161 | The two copies agree on a listed opponent; for an unlisted one they return 62.5 and the computed league average |
| ReturnYards.DefaultReturnPoints | fantasy_projections.py:118 | The 62.5 default is worth 6.2 return points, since the tie 6.25 rounds to even |
| Rounding.Tenths | fantasy_projections.py:261 | The tenths count is within half a tenth of the value |
| Rounding.Round1 | fantasy_projections.py:261 | `round(x, 1)` is within 0.05 of x |
| Rounding.Round1OfTenths | fantasy_projections.py:261 | A value that already has one decimal is unchanged |
| Rounding.Round1Monotone | fantasy_projections.py:261 | Rounding never reverses the order of two values |
| Rounding.Round1Negate | accuracy_tracking.py:83 | Rounding commutes with negation |
| Rounding.RoundedSqrt | accuracy_tracking.py:235-240 | `round(sqrt(v), 1)` r is non-negative, with (r - 0.05)² < v ≤ (r + 0.05)² (or r = 0) |
| Rounding.SqrtTenthsDouble | accuracy_tracking.py:240-241 | The rounded root of 4v is at least the rounded root of v, and within one tenth of twice it |
| Accuracy.Difference | accuracy_tracking.py:83 | The difference is within 0.05 of actual minus projected |
| Accuracy.DifferenceAntisymmetric | accuracy_tracking.py:83 | Swapping actual and projected negates the difference |
| Accuracy.Divisor | accuracy_tracking.py:84 | The divisor is `max(projected, 1)`: one of the two, and at least both, so the accuracy never divides by zero |
| Accuracy.AccuracyPct | accuracy_tracking.py:84 | The accuracy is `(1 - abs(actual - projected) / max(projected, 1)) * 100` rounded to within 0.05; it is 100 when actual equals projected, and never above 100 |
| Accuracy.AccuracyMonotone | accuracy_tracking.py:84 | A larger miss never gives a higher accuracy |
| Accuracy.MakeResult | accuracy_tracking.py:77-85 | A result carries the projection's player, position, team and points, the actual points, the difference and the accuracy |
| Accuracy.ResultsWith | accuracy_tracking.py:69-85 | One result per saved projection, in order |
| Accuracy.FetchActualResults | accuracy_tracking.py:69-85 | With the 0.0 placeholder, every result records 0 actual points |
| Accuracy.PlaceholderResults | accuracy_tracking.py:104-109 | With the placeholder, a projection of at least one point is 0% accurate and its difference is minus the rounded projection |
| Accuracy.Variance | accuracy_tracking.py:235 | The population variance is never negative |
| Accuracy.ConfidenceOf | accuracy_tracking.py:233-243 | 68_pct and 95_pct are the rounded roots of the variance and of four times it, with 0 ≤ 68_pct ≤ 95_pct and 95_pct within 0.1 of twice 68_pct; avg_error is the rounded mean absolute difference |
| Accuracy.ExactHistoryGivesZeroWidth | accuracy_tracking.py:233-243 | Differences that are all 0 give zero widths and zero average error |
| Accuracy.PositionDifferences | accuracy_tracking.py:231-234 | A position that appears in the results has at least one difference |
| Accuracy.PositionDifferencesFilter | accuracy_tracking.py:231-234 | A position's differences are the differences of exactly the results with that position, in order |
| Accuracy.PositionDifferencesAppend | accuracy_tracking.py:231-234 | Splitting the results splits each position's differences, keeping their order |
| Accuracy.ConfidenceIntervals | accuracy_tracking.py:211-245 | No results give an empty map; otherwise an entry exactly for the positions that appear, each the confidence of that position's differences |
| Accuracy.BandsFor | accuracy_tracking.py:326-329 | The bands are the projection plus and minus each width |
| Accuracy.ApplyBands | accuracy_tracking.py:319-329 | Bands are added exactly for the positions in the map, and projections are unchanged |
| Accuracy.IntervalsValid | accuracy_tracking.py:239-243 | Every published width is non-negative, and the 95% width is at least the 68% one |
| Accuracy.BandsNest | accuracy_tracking.py:319-329 | Every band is centred on the projection, and the 95% band contains the 68% band |

## Left out

- Data loading through nfl_data_py and pandas is not modelled. Play-by-play and weekly tables are parameters: sequences of play and row records.
- The `season_type == 'REG'` filter is not modelled; the play and row sequences are taken to hold regular-season data only.
- `get_fumbles_from_pbp` (saquon_scorer.py:59-69) is a DataFrame query. Its result is the `pbpFumbles` parameter of `GameScorer.WeeklyScore`.
- HTML scraping (`FantasyProsProjectionScraper`) and `safe_float` parsing are left out: they are network I/O and float parsing. Scraped rows are parameters.
- JSON persistence, the `show_*`, `print_*` and report methods, `export_for_web` and `display_projections` are left out: they are file and console I/O.
- `_calculate_actual_points` is a placeholder that returns 0.0 and is modelled as such (`Accuracy.PlaceholderActual`). `Accuracy.ResultsWith` takes any actual-points function.
- The substring roster matching in `get_my_roster_projections` is left out: it is regex matching over DataFrames.
- fantasy_projections_enhanced.py, scoring_final.py, simple_test.py, check_td_bonus.py, test_scraper.py and the debug functions of saquon_scorer.py are left out. They are scripts that download data and inline the same formulas.
- The sack part of get_nfl_data.py is left out; it is not part of the touchdown-bonus counter.
- `avg_td_length` and `avg_distance` are stated as the mean yards and mean distance, but no rule reads them, so nothing further is proved about them.
- The console notes that `calculate_weekly_score` prints, and its breakdown dictionary beyond the touchdown details, are left out.
- Rounding.Round1: exact round-half-even on reals. Python rounds the nearest binary double, so values whose decimal tie is not exactly representable may round the other way.
- Rounding.RoundedSqrt: a tie between two tenths is broken downward. `np.std` followed by `round` on doubles may break it either way.
- Rounding.SqrtTenthsDouble: states 95_pct against 68_pct only up to one tenth, because both are rounded from the unrounded standard deviation.
- Lineup.SortDesc: a stable insertion sort. `sort_values` is not stable, so players with equal points may be visited in another order. Every lineup property holds for any descending order.
- Lineup.RosterLineup: the `projected_points` key of a roster entry is the `points` field. Other dictionary keys are not carried.
- Projections.ProjectPlayer: the projected row keeps only its name, position, points, touchdown bonus and return points. The scraped dictionary's other keys are dropped, and `expected_return_yards` is the fixed 62.5.
- ReturnYards.GamesPlayed: its own contract only bounds the count by two per game. The exact count is stated by GamesPlayedOfOne for one game and GamesPlayedAppend for any split.
- ReturnYards.ReturnPoints: stated within 0.05 of yards / 10, which is `Round1`'s own guarantee.
- ReturnYards.Averages: dictionary insertion order is modelled as the order of first credit in the play sequence. Only lookups are stated about it.

## Findings

| source | as written | input that shows it | evidently intended | confidence | as-written member | corrected member |
|---|---|---|---|---|---|---|
| fantasy_projections.py:296-299 | The flat 3.2 × `fg` term is added whenever `fg` is present and `fg_0_19` is absent, even when other distance bands were already scored | `{"fg": 2, "fg_20_29": 1, "fg_30_39": 1}`: the bands give 6.0 and the flat term adds 6.4, for 12.4 | Per the comment "If only total FG is provided", the flat rate applies only when no distance band is reported, giving 6.0 | not executed | Scorers.KickerDoubleCount | Scorers.KickerScoreIntended |

`Scorers.KickerScore` is the scorer as written. `Scorers.KickerScoresAgree` shows that it matches the corrected scorer everywhere outside the double-count case. The weekly projections never call the kicker scorer, because kickers are projected through the distance table (`Projections.KickerProjection`).
