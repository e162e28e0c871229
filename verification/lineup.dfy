/**
 * The greedy lineup builders of fantasy_projections.py: players in descending
 * order of projected points fill their position's slots until each is full,
 * skipping names already used, and the best remaining RB, WR or TE takes FLEX.
 */
module Lineup {
  import opened Wrappers
  import opened Projections

  // ---------------------------------------------------------------------
  // Sorting by projected points
  // ---------------------------------------------------------------------

  predicate Descending(s: seq<ProjectedPlayer>) {
    forall i, j :: 0 <= i < j < |s| ==> s[i].points >= s[j].points
  }

  /** Inserts `x` before the first entry it is not below, so that it stays in
      front of later entries with equal points. */
  function Insert(x: ProjectedPlayer, s: seq<ProjectedPlayer>): (r: seq<ProjectedPlayer>)
    ensures multiset(r) == multiset(s) + multiset{x}
  {
    if |s| == 0 then [x]
    else if x.points >= s[0].points then [x] + s
    else
      assert s == [s[0]] + s[1..];
      [s[0]] + Insert(x, s[1..])
  }

  /** Inserting a player below `bound` into players below `bound` leaves
      every entry below `bound`. */
  lemma InsertBelow(x: ProjectedPlayer, s: seq<ProjectedPlayer>, bound: real)
    requires x.points <= bound
    requires forall k :: 0 <= k < |s| ==> s[k].points <= bound
    ensures forall k :: 0 <= k < |Insert(x, s)| ==> Insert(x, s)[k].points <= bound
  {
    var r := Insert(x, s);
    forall k | 0 <= k < |r| ensures r[k].points <= bound {
      assert r[k] in multiset(r);
      if r[k] != x {
        assert r[k] in multiset(s);
        var m :| 0 <= m < |s| && s[m] == r[k];
      }
    }
  }

  /** Insertion keeps a descending sequence descending. */
  lemma {:induction false} InsertDescending(x: ProjectedPlayer, s: seq<ProjectedPlayer>)
    requires Descending(s)
    ensures Descending(Insert(x, s))
  {
    if |s| > 0 && x.points < s[0].points {
      var rest := Insert(x, s[1..]);
      InsertDescending(x, s[1..]);
      InsertBelow(x, s[1..], s[0].points);
      var r := [s[0]] + rest;
      assert r == Insert(x, s);
      assert forall k :: 1 <= k < |r| ==> r[k] == rest[k - 1];
    }
  }

  /** Sorting by projected points, highest first (`sort(..., reverse=True)`). */
  function SortDesc(s: seq<ProjectedPlayer>): (r: seq<ProjectedPlayer>)
    ensures Descending(r)
    ensures multiset(r) == multiset(s)
  {
    if |s| == 0 then []
    else
      assert s == [s[0]] + s[1..];
      var rest := SortDesc(s[1..]);
      InsertDescending(s[0], rest);
      Insert(s[0], rest)
  }

  // ---------------------------------------------------------------------
  // Slots and picks
  // ---------------------------------------------------------------------

  /** The lineup's keys; RB1/RB2 and WR1/WR2 of the roster lineup are the first
      and second entries of the RB and WR slots. */
  datatype Slot = QBSlot | RBSlot | WRSlot | TESlot | FlexSlot | KSlot | DefSlot

  /** The starter slot a position fills. */
  function StarterSlot(pos: Position): Slot {
    match pos
    case QB => QBSlot
    case RB => RBSlot
    case WR => WRSlot
    case TE => TESlot
    case K => KSlot
    case DST => DefSlot
  }

  predicate FlexEligible(pos: Position) { pos == RB || pos == WR || pos == TE }

  /** How many players a slot takes; kickers and defenses are placed only when
      `kickers` holds (the roster lineup). */
  function Cap(s: Slot, kickers: bool): nat {
    match s
    case QBSlot => 1
    case RBSlot => 2
    case WRSlot => 2
    case TESlot => 1
    case FlexSlot => 1
    case KSlot => if kickers then 1 else 0
    case DefSlot => if kickers then 1 else 0
  }

  /** Whether a player of position `pos` may go into slot `s`. */
  predicate Fits(s: Slot, pos: Position, kickers: bool) {
    if s == FlexSlot then FlexEligible(pos)
    else StarterSlot(pos) == s && Cap(s, kickers) > 0
  }

  /** One placement, in the order the builder made it. */
  datatype Pick = Pick(slot: Slot, player: ProjectedPlayer)

  /** The names placed so far (`used_players`). */
  function NamesOf(picks: seq<Pick>): set<string> {
    set k | 0 <= k < |picks| :: picks[k].player.player
  }

  /** The players under one key of the lineup, in the order placed. */
  function SlotPlayers(picks: seq<Pick>, s: Slot): (r: seq<ProjectedPlayer>)
    ensures |r| <= |picks|
    ensures forall a :: 0 <= a < |r| ==> Pick(s, r[a]) in picks
  {
    if |picks| == 0 then []
    else
      var last := picks[|picks| - 1];
      var front := SlotPlayers(picks[..|picks| - 1], s);
      if last.slot == s then front + [last.player] else front
  }

  /** A new placement extends its own slot and no other. */
  lemma AddPick(picks: seq<Pick>, q: Pick)
    ensures forall s ::
      SlotPlayers(picks + [q], s) == if s == q.slot then SlotPlayers(picks, s) + [q.player] else SlotPlayers(picks, s)
    ensures NamesOf(picks + [q]) == NamesOf(picks) + {q.player.player}
  {
    var r := picks + [q];
    assert r[..|r| - 1] == picks;
    assert forall k :: 0 <= k < |picks| ==> r[k] == picks[k];
    assert r[|picks|] == q;
  }

  /** A player the builder did not need: either the name is already placed, or
      the slot is full of players projected at least as high. */
  predicate Covered(picks: seq<Pick>, s: Slot, p: ProjectedPlayer, kickers: bool) {
    p.player in NamesOf(picks) || SlotFull(picks, s, p, kickers)
  }

  /** Slot `s` holds as many players as it takes, the last of them projected
      at least as high as `p`. */
  predicate SlotFull(picks: seq<Pick>, s: Slot, p: ProjectedPlayer, kickers: bool) {
    var sp := SlotPlayers(picks, s);
    |sp| == Cap(s, kickers) && |sp| > 0 && sp[|sp| - 1].points >= p.points
  }

  /** The FLEX player went to FLEX only because the starter slot of its own
      position was already full of players projected at least as high. */
  predicate FlexOverflow(picks: seq<Pick>, kickers: bool) {
    forall k :: 0 <= k < |picks| && picks[k].slot == FlexSlot ==>
      SlotFull(picks, StarterSlot(picks[k].player.position), picks[k].player, kickers)
  }

  /** No placement is in FLEX. */
  predicate NoFlex(picks: seq<Pick>) {
    forall k :: 0 <= k < |picks| ==> picks[k].slot != FlexSlot
  }

  // ---------------------------------------------------------------------
  // The greedy builder
  // ---------------------------------------------------------------------

  /** The first index from `from` on of an unplaced FLEX-eligible player. */
  function FirstFlex(sorted: seq<ProjectedPlayer>, used: set<string>, from: nat): (r: Option<nat>)
    requires from <= |sorted|
    ensures r.Some? ==> from <= r.value < |sorted|
    ensures r.Some? ==> sorted[r.value].player !in used && FlexEligible(sorted[r.value].position)
    ensures forall m :: from <= m < |sorted| && (r.None? || m < r.value) ==>
      sorted[m].player in used || !FlexEligible(sorted[m].position)
    decreases |sorted| - from
  {
    if from == |sorted| then None
    else if sorted[from].player !in used && FlexEligible(sorted[from].position) then Some(from)
    else FirstFlex(sorted, used, from + 1)
  }

  // The builder's invariants, one predicate each.

  predicate FromSorted(picks: seq<Pick>, sorted: seq<ProjectedPlayer>, kickers: bool) {
    forall k :: 0 <= k < |picks| ==>
      picks[k].player in sorted && Fits(picks[k].slot, picks[k].player.position, kickers)
  }

  predicate DistinctNames(picks: seq<Pick>) {
    forall a, b :: 0 <= a < b < |picks| ==> picks[a].player.player != picks[b].player.player
  }

  predicate SlotsOrdered(picks: seq<Pick>, kickers: bool) {
    forall s :: |SlotPlayers(picks, s)| <= Cap(s, kickers) && Descending(SlotPlayers(picks, s))
  }

  /** Every pick so far projects at least as high as every player not yet seen. */
  predicate AboveRest(picks: seq<Pick>, sorted: seq<ProjectedPlayer>, i: nat) {
    forall k, m :: 0 <= k < |picks| && i <= m < |sorted| ==> picks[k].player.points >= sorted[m].points
  }

  predicate StartersCovered(picks: seq<Pick>, sorted: seq<ProjectedPlayer>, i: nat, kickers: bool) {
    forall j, s :: 0 <= j < i && j < |sorted| && s != FlexSlot && Fits(s, sorted[j].position, kickers) ==>
      Covered(picks, s, sorted[j], kickers)
  }

  lemma FromSortedStep(picks: seq<Pick>, q: Pick, sorted: seq<ProjectedPlayer>, kickers: bool)
    requires FromSorted(picks, sorted, kickers)
    requires q.player in sorted && Fits(q.slot, q.player.position, kickers)
    ensures FromSorted(picks + [q], sorted, kickers)
  {
  }

  lemma DistinctStep(picks: seq<Pick>, q: Pick)
    requires DistinctNames(picks) && q.player.player !in NamesOf(picks)
    ensures DistinctNames(picks + [q])
  {
  }

  lemma SlotsStep(picks: seq<Pick>, q: Pick, kickers: bool)
    requires SlotsOrdered(picks, kickers)
    requires |SlotPlayers(picks, q.slot)| < Cap(q.slot, kickers)
    requires forall a :: 0 <= a < |SlotPlayers(picks, q.slot)| ==> SlotPlayers(picks, q.slot)[a].points >= q.player.points
    ensures SlotsOrdered(picks + [q], kickers)
  {
    AddPick(picks, q);
    forall s ensures |SlotPlayers(picks + [q], s)| <= Cap(s, kickers) && Descending(SlotPlayers(picks + [q], s)) {
      if s == q.slot {
        AppendDescending(SlotPlayers(picks, s), q.player);
      }
    }
  }

  /** A player no higher than every entry of a descending list extends it. */
  lemma AppendDescending(sp: seq<ProjectedPlayer>, x: ProjectedPlayer)
    requires Descending(sp)
    requires forall a :: 0 <= a < |sp| ==> sp[a].points >= x.points
    ensures Descending(sp + [x])
  {
  }

  lemma AboveStep(picks: seq<Pick>, sorted: seq<ProjectedPlayer>, i: nat, q: Pick)
    requires Descending(sorted) && i < |sorted| && q.player == sorted[i]
    requires AboveRest(picks, sorted, i)
    ensures AboveRest(picks + [q], sorted, i + 1)
  {
  }

  /** The slot's last player projects at least as high as the current one. */
  lemma SlotAbove(picks: seq<Pick>, sorted: seq<ProjectedPlayer>, i: nat, s: Slot)
    requires i < |sorted| && AboveRest(picks, sorted, i)
    ensures forall a :: 0 <= a < |SlotPlayers(picks, s)| ==> SlotPlayers(picks, s)[a].points >= sorted[i].points
  {
  }

  /** A new placement leaves a covered player covered, unless it joins the
      player's own slot, which then was not full. */
  lemma CoveredKept(picks: seq<Pick>, q: Pick, s: Slot, p: ProjectedPlayer, kickers: bool)
    requires Covered(picks, s, p, kickers)
    requires s != q.slot || p.player in NamesOf(picks)
    ensures Covered(picks + [q], s, p, kickers)
  {
  }

  /** Placing the i-th player keeps every earlier player covered and covers it. */
  lemma CoveredAdd(picks: seq<Pick>, sorted: seq<ProjectedPlayer>, i: nat, kickers: bool)
    requires i < |sorted| && StartersCovered(picks, sorted, i, kickers)
    requires |SlotPlayers(picks, StarterSlot(sorted[i].position))| < Cap(StarterSlot(sorted[i].position), kickers)
    ensures StartersCovered(picks + [Pick(StarterSlot(sorted[i].position), sorted[i])], sorted, i + 1, kickers)
  {
  }

  /** Without a FLEX candidate every eligible player is covered in every slot. */
  lemma FlexNoneCovered(picks: seq<Pick>, sorted: seq<ProjectedPlayer>, kickers: bool)
    requires StartersCovered(picks, sorted, |sorted|, kickers)
    requires forall m :: 0 <= m < |sorted| ==> sorted[m].player in NamesOf(picks) || !FlexEligible(sorted[m].position)
    ensures forall j, s :: 0 <= j < |sorted| && Fits(s, sorted[j].position, kickers) ==> Covered(picks, s, sorted[j], kickers)
  {
  }

  /** Placing the first unplaced eligible player in FLEX covers one eligible
      player in one slot. */
  lemma FlexSomeCoveredAt(picks: seq<Pick>, sorted: seq<ProjectedPlayer>, at: nat, kickers: bool, j: nat, s: Slot)
    requires Descending(sorted)
    requires StartersCovered(picks, sorted, |sorted|, kickers)
    requires SlotPlayers(picks, FlexSlot) == []
    requires at < |sorted| && j < |sorted| && Fits(s, sorted[j].position, kickers)
    requires forall m :: 0 <= m < at ==> sorted[m].player in NamesOf(picks) || !FlexEligible(sorted[m].position)
    ensures Covered(picks + [Pick(FlexSlot, sorted[at])], s, sorted[j], kickers)
  {
    var q := Pick(FlexSlot, sorted[at]);
    var r := picks + [q];
    if s != FlexSlot {
      assert Covered(picks, s, sorted[j], kickers);
      CoveredKept(picks, q, s, sorted[j], kickers);
    } else if j < at {
      assert sorted[j].player in NamesOf(r) by {
        assert sorted[j].player in NamesOf(picks);
        AddPick(picks, q);
      }
    } else {
      assert SlotPlayers(r, FlexSlot) == [sorted[at]] by {
        AddPick(picks, q);
      }
      assert sorted[at].points >= sorted[j].points;
    }
  }

  /** Placing the first unplaced eligible player in FLEX covers every eligible
      player in every slot. */
  lemma FlexSomeCovered(picks: seq<Pick>, sorted: seq<ProjectedPlayer>, at: nat, kickers: bool)
    requires Descending(sorted)
    requires StartersCovered(picks, sorted, |sorted|, kickers)
    requires SlotPlayers(picks, FlexSlot) == []
    requires at < |sorted|
    requires forall m :: 0 <= m < at ==> sorted[m].player in NamesOf(picks) || !FlexEligible(sorted[m].position)
    ensures var r := picks + [Pick(FlexSlot, sorted[at])];
      forall j, s :: 0 <= j < |sorted| && Fits(s, sorted[j].position, kickers) ==> Covered(r, s, sorted[j], kickers)
  {
    var r := picks + [Pick(FlexSlot, sorted[at])];
    forall j, s | 0 <= j < |sorted| && Fits(s, sorted[j].position, kickers)
      ensures Covered(r, s, sorted[j], kickers)
    {
      FlexSomeCoveredAt(picks, sorted, at, kickers, j, s);
    }
  }

  /** The starters pass's invariant after the first `i` players. */
  predicate StartersInvariant(picks: seq<Pick>, sorted: seq<ProjectedPlayer>, i: nat, kickers: bool) {
    && FromSorted(picks, sorted, kickers)
    && DistinctNames(picks)
    && SlotsOrdered(picks, kickers)
    && AboveRest(picks, sorted, i)
    && StartersCovered(picks, sorted, i, kickers)
    && SlotPlayers(picks, FlexSlot) == []
    && NoFlex(picks)
  }

  /** Placing the i-th player in its slot keeps the invariant. */
  lemma PlaceStep(picks: seq<Pick>, sorted: seq<ProjectedPlayer>, i: nat, kickers: bool)
    requires Descending(sorted) && i < |sorted|
    requires StartersInvariant(picks, sorted, i, kickers)
    requires sorted[i].player !in NamesOf(picks)
    requires |SlotPlayers(picks, StarterSlot(sorted[i].position))| < Cap(StarterSlot(sorted[i].position), kickers)
    ensures StartersInvariant(picks + [Pick(StarterSlot(sorted[i].position), sorted[i])], sorted, i + 1, kickers)
    ensures NamesOf(picks + [Pick(StarterSlot(sorted[i].position), sorted[i])]) == NamesOf(picks) + {sorted[i].player}
  {
    var slot := StarterSlot(sorted[i].position);
    var q := Pick(slot, sorted[i]);
    FromSortedStep(picks, q, sorted, kickers);
    DistinctStep(picks, q);
    SlotAbove(picks, sorted, i, slot);
    SlotsStep(picks, q, kickers);
    AboveStep(picks, sorted, i, q);
    CoveredAdd(picks, sorted, i, kickers);
    NoFlexStep(picks, q);
    AddPick(picks, q);
  }

  lemma NoFlexStep(picks: seq<Pick>, q: Pick)
    requires NoFlex(picks) && q.slot != FlexSlot
    ensures NoFlex(picks + [q])
  {
  }

  /** Passing over the i-th player keeps the invariant. */
  lemma SkipStep(picks: seq<Pick>, sorted: seq<ProjectedPlayer>, i: nat, kickers: bool)
    requires Descending(sorted) && i < |sorted|
    requires StartersInvariant(picks, sorted, i, kickers)
    requires sorted[i].player in NamesOf(picks)
      || |SlotPlayers(picks, StarterSlot(sorted[i].position))| >= Cap(StarterSlot(sorted[i].position), kickers)
    ensures StartersInvariant(picks, sorted, i + 1, kickers)
  {
  }

  /** The starters pass: each player in descending order takes its position's
      slot when the name is unused and the slot has room. */
  method PlaceStarters(sorted: seq<ProjectedPlayer>, kickers: bool) returns (picks: seq<Pick>, used: set<string>)
    requires Descending(sorted)
    ensures used == NamesOf(picks)
    ensures FromSorted(picks, sorted, kickers)
    ensures DistinctNames(picks)
    ensures SlotsOrdered(picks, kickers)
    ensures StartersCovered(picks, sorted, |sorted|, kickers)
    ensures SlotPlayers(picks, FlexSlot) == []
    ensures NoFlex(picks)
  {
    picks := [];
    used := {};
    for i := 0 to |sorted|
      invariant used == NamesOf(picks)
      invariant StartersInvariant(picks, sorted, i, kickers)
    {
      var p := sorted[i];
      var slot := StarterSlot(p.position);
      if p.player !in used && |SlotPlayers(picks, slot)| < Cap(slot, kickers) {
        PlaceStep(picks, sorted, i, kickers);
        picks := picks + [Pick(slot, p)];
        used := used + {p.player};
      } else {
        SkipStep(picks, sorted, i, kickers);
      }
    }
  }

  /** Both builders: starters in descending order of points, then the first
      unplaced RB, WR or TE in FLEX. With `kickers` the K and DST slots take
      one player each, as in the roster lineup; without it they stay empty. */
  method Greedy(projs: seq<ProjectedPlayer>, kickers: bool) returns (picks: seq<Pick>)
    ensures forall k :: 0 <= k < |picks| ==> picks[k].player in projs
    ensures forall k :: 0 <= k < |picks| ==> Fits(picks[k].slot, picks[k].player.position, kickers)
    ensures DistinctNames(picks)
    ensures forall s :: |SlotPlayers(picks, s)| <= Cap(s, kickers)
    ensures forall s :: Descending(SlotPlayers(picks, s))
    ensures forall p, s :: p in projs && Fits(s, p.position, kickers) ==> Covered(picks, s, p, kickers)
    ensures FlexOverflow(picks, kickers)
  {
    var sorted := SortDesc(projs);
    var used;
    picks, used := PlaceStarters(sorted, kickers);
    var at := FirstFlex(sorted, used, 0);
    if at.None? {
      FlexNoneCovered(picks, sorted, kickers);
    } else {
      FlexSomeCovered(picks, sorted, at.value, kickers);
      var q := Pick(FlexSlot, sorted[at.value]);
      FromSortedStep(picks, q, sorted, kickers);
      DistinctStep(picks, q);
      SlotsStep(picks, q, kickers);
      FlexAfterStarters(picks, sorted, at.value, kickers);
      picks := picks + [q];
    }
    FromSortedToInput(picks, sorted, projs, kickers);
  }

  /** The FLEX candidate is unplaced after the starters pass, so its own slot
      is full of players projected at least as high; the FLEX placement does
      not change that slot. */
  lemma FlexAfterStarters(picks: seq<Pick>, sorted: seq<ProjectedPlayer>, at: nat, kickers: bool)
    requires NoFlex(picks)
    requires StartersCovered(picks, sorted, |sorted|, kickers)
    requires at < |sorted| && sorted[at].player !in NamesOf(picks) && FlexEligible(sorted[at].position)
    ensures FlexOverflow(picks + [Pick(FlexSlot, sorted[at])], kickers)
  {
    var q := Pick(FlexSlot, sorted[at]);
    var r := picks + [q];
    var s := StarterSlot(sorted[at].position);
    assert s != FlexSlot && Fits(s, sorted[at].position, kickers);
    assert SlotFull(picks, s, sorted[at], kickers);
    AddPick(picks, q);
    assert SlotPlayers(r, s) == SlotPlayers(picks, s);
    assert forall k :: 0 <= k < |picks| ==> r[k] == picks[k];
    assert r[|picks|] == q;
  }

  /** Properties stated over the sorted players carry over to the input. */
  lemma FromSortedToInput(picks: seq<Pick>, sorted: seq<ProjectedPlayer>, projs: seq<ProjectedPlayer>, kickers: bool)
    requires multiset(sorted) == multiset(projs)
    requires FromSorted(picks, sorted, kickers)
    requires forall j, s :: 0 <= j < |sorted| && Fits(s, sorted[j].position, kickers) ==> Covered(picks, s, sorted[j], kickers)
    ensures forall k :: 0 <= k < |picks| ==> picks[k].player in projs
    ensures forall p, s :: p in projs && Fits(s, p.position, kickers) ==> Covered(picks, s, p, kickers)
  {
    forall p, s | p in projs && Fits(s, p.position, kickers)
      ensures Covered(picks, s, p, kickers)
    {
      assert p in multiset(sorted);
      var j :| 0 <= j < |sorted| && sorted[j] == p;
    }
    forall k | 0 <= k < |picks| ensures picks[k].player in projs {
      assert picks[k].player in multiset(projs);
    }
  }

  // ---------------------------------------------------------------------
  // The two lineups
  // ---------------------------------------------------------------------

  /** `get_optimal_lineup`: QB 1, RB 2, WR 2, TE 1 and FLEX 1 from all
      projections; its K and DEF lists are never filled. The list under a key
      is `SlotPlayers(picks, key)`. */
  method OptimalLineup(projs: seq<ProjectedPlayer>) returns (picks: seq<Pick>)
    ensures SlotPlayers(picks, KSlot) == [] && SlotPlayers(picks, DefSlot) == []
    ensures forall k :: 0 <= k < |picks| ==> picks[k].player in projs
    ensures forall k :: 0 <= k < |picks| ==> Fits(picks[k].slot, picks[k].player.position, false)
    ensures DistinctNames(picks)
    ensures forall s :: |SlotPlayers(picks, s)| <= Cap(s, false) && Descending(SlotPlayers(picks, s))
    ensures forall p, s :: p in projs && Fits(s, p.position, false) ==> Covered(picks, s, p, false)
    ensures FlexOverflow(picks, false)
  {
    picks := Greedy(projs, false);
    assert |SlotPlayers(picks, KSlot)| <= Cap(KSlot, false);
    assert |SlotPlayers(picks, DefSlot)| <= Cap(DefSlot, false);
  }

  /** The roster lineup's keys, `None` when a key stays empty. */
  datatype RosterSlots = RosterSlots(
    qb: Option<ProjectedPlayer>,
    rb1: Option<ProjectedPlayer>, rb2: Option<ProjectedPlayer>,
    wr1: Option<ProjectedPlayer>, wr2: Option<ProjectedPlayer>,
    te: Option<ProjectedPlayer>,
    flex: Option<ProjectedPlayer>,
    k: Option<ProjectedPlayer>,
    dst: Option<ProjectedPlayer>)

  function Fields(r: RosterSlots): seq<Option<ProjectedPlayer>> {
    [r.qb, r.rb1, r.rb2, r.wr1, r.wr2, r.te, r.flex, r.k, r.dst]
  }

  /** The names in the lineup. */
  function FieldNames(r: RosterSlots): set<string> {
    set i | 0 <= i < 9 && Fields(r)[i].Some? :: Fields(r)[i].value.player
  }

  /** A player the roster lineup did not need: already in the lineup, or
      projected no higher than the given filled key. */
  predicate Outranked(r: RosterSlots, p: ProjectedPlayer, key: Option<ProjectedPlayer>) {
    p.player in FieldNames(r) || (key.Some? && key.value.points >= p.points)
  }

  function Nth(s: seq<ProjectedPlayer>, n: nat): (r: Option<ProjectedPlayer>)
    ensures r.Some? <==> n < |s|
    ensures r.Some? ==> r.value == s[n]
  {
    if n < |s| then Some(s[n]) else None
  }

  /** A placed player is listed under its own key. */
  lemma {:induction false} PickInSlot(picks: seq<Pick>, k: nat)
    requires k < |picks|
    ensures exists a :: 0 <= a < |SlotPlayers(picks, picks[k].slot)| && SlotPlayers(picks, picks[k].slot)[a] == picks[k].player
  {
    var front := picks[..|picks| - 1];
    var s := picks[k].slot;
    if k < |picks| - 1 {
      assert front[k] == picks[k];
      PickInSlot(front, k);
      var a :| 0 <= a < |SlotPlayers(front, s)| && SlotPlayers(front, s)[a] == picks[k].player;
      assert SlotPlayers(picks, s)[a] == picks[k].player;
    } else {
      var sp := SlotPlayers(picks, s);
      assert sp[|sp| - 1] == picks[k].player;
    }
  }

  /** Two different entries of one key have different names. */
  lemma {:induction false} SlotNamesDistinct(picks: seq<Pick>, s: Slot)
    requires DistinctNames(picks)
    ensures forall a, b :: 0 <= a < b < |SlotPlayers(picks, s)| ==>
      SlotPlayers(picks, s)[a].player != SlotPlayers(picks, s)[b].player
  {
    if |picks| > 0 {
      var front := picks[..|picks| - 1];
      var last := picks[|picks| - 1];
      assert DistinctNames(front) by {
        forall a, b | 0 <= a < b < |front| ensures front[a].player.player != front[b].player.player {
          assert front[a] == picks[a] && front[b] == picks[b];
        }
      }
      SlotNamesDistinct(front, s);
      var sf := SlotPlayers(front, s);
      if last.slot == s {
        forall a | 0 <= a < |sf| ensures sf[a].player != last.player.player {
          assert Pick(s, sf[a]) in front;
          var k :| 0 <= k < |front| && front[k] == Pick(s, sf[a]);
          assert picks[k] == front[k];
        }
      }
    }
  }

  /** Entries under two different keys have different names. */
  lemma CrossSlotDistinct(picks: seq<Pick>, s: Slot, t: Slot, x: ProjectedPlayer, y: ProjectedPlayer)
    requires DistinctNames(picks) && s != t
    requires Pick(s, x) in picks && Pick(t, y) in picks
    ensures x.player != y.player
  {
  }

  /** `get_optimal_lineup_from_roster`: QB, RB1, RB2, WR1, WR2, TE, K and DST
      from the roster in descending order of points, then the best remaining
      RB, WR or TE in FLEX. */
  method RosterLineup(players: seq<ProjectedPlayer>) returns (r: RosterSlots)
    ensures forall i :: 0 <= i < 9 && Fields(r)[i].Some? ==>
      Fields(r)[i].value in players && Fits(SlotOfField(i), Fields(r)[i].value.position, true)
    ensures r.rb2.Some? ==> r.rb1.Some? && r.rb1.value.points >= r.rb2.value.points
    ensures r.wr2.Some? ==> r.wr1.Some? && r.wr1.value.points >= r.wr2.value.points
    ensures forall i, j :: 0 <= i < j < 9 && Fields(r)[i].Some? && Fields(r)[j].Some? ==>
      Fields(r)[i].value.player != Fields(r)[j].value.player
    ensures forall p, i :: p in players && 0 <= i < 9 && LastOfSlot(i) && Fits(SlotOfField(i), p.position, true) ==>
      Outranked(r, p, Fields(r)[i])
    ensures r.flex.Some? ==>
      LastKeyOf(r, r.flex.value.position).Some? && LastKeyOf(r, r.flex.value.position).value.points >= r.flex.value.points
  {
    var picks := Greedy(players, true);
    r := RosterOf(picks);
    RosterOfReadsOff(picks);
    RosterMembers(picks, players, r);
    RosterNames(picks, r);
    RosterDistinct(picks, r);
    RosterOutranked(picks, players, r);
    RosterFlex(picks, r);
    assert Descending(SlotPlayers(picks, RBSlot)) && Descending(SlotPlayers(picks, WRSlot));
  }

  /** The last key of a FLEX-eligible position: RB2, WR2 or TE. */
  function LastKeyOf(r: RosterSlots, pos: Position): Option<ProjectedPlayer> {
    if pos == RB then r.rb2
    else if pos == WR then r.wr2
    else if pos == TE then r.te
    else None
  }

  /** The FLEX key's player overflowed from the last key of its position. */
  lemma RosterFlex(picks: seq<Pick>, r: RosterSlots)
    requires ReadOff(picks, r)
    requires forall k :: 0 <= k < |picks| ==> Fits(picks[k].slot, picks[k].player.position, true)
    requires FlexOverflow(picks, true)
    ensures r.flex.Some? ==>
      LastKeyOf(r, r.flex.value.position).Some? && LastKeyOf(r, r.flex.value.position).value.points >= r.flex.value.points
  {
    if r.flex.Some? {
      var v := r.flex.value;
      assert Fields(r)[6] == FieldOf(picks, 6);
      assert Pick(FlexSlot, v) in picks;
      var k :| 0 <= k < |picks| && picks[k] == Pick(FlexSlot, v);
      assert FlexEligible(v.position);
      var sp := SlotPlayers(picks, StarterSlot(v.position));
      assert SlotFull(picks, StarterSlot(v.position), v, true);
      if v.position == RB {
        assert Fields(r)[2] == FieldOf(picks, 2);
      } else if v.position == WR {
        assert Fields(r)[4] == FieldOf(picks, 4);
      } else {
        assert Fields(r)[5] == FieldOf(picks, 5);
      }
    }
  }

  /** Where each key of the roster lineup comes from. */
  function SlotOfField(i: nat): Slot
    requires i < 9
  {
    [QBSlot, RBSlot, RBSlot, WRSlot, WRSlot, TESlot, FlexSlot, KSlot, DefSlot][i]
  }

  function IndexOfField(i: nat): nat
    requires i < 9
  {
    [0, 0, 1, 0, 1, 0, 0, 0, 0][i]
  }

  /** Key `i` is the last of its slot: QB, RB2, WR2, TE, FLEX, K or DST. */
  predicate LastOfSlot(i: nat)
    requires i < 9
  {
    IndexOfField(i) + 1 == Cap(SlotOfField(i), true)
  }

  /** What key `i` holds: the entry of its slot at its index, if any. */
  function FieldOf(picks: seq<Pick>, i: nat): Option<ProjectedPlayer>
    requires i < 9
  {
    Nth(SlotPlayers(picks, SlotOfField(i)), IndexOfField(i))
  }

  /** The roster record of a list of placements. */
  function RosterOf(picks: seq<Pick>): RosterSlots {
    RosterSlots(FieldOf(picks, 0), FieldOf(picks, 1), FieldOf(picks, 2), FieldOf(picks, 3), FieldOf(picks, 4),
      FieldOf(picks, 5), FieldOf(picks, 6), FieldOf(picks, 7), FieldOf(picks, 8))
  }

  lemma RosterOfReadsOff(picks: seq<Pick>)
    ensures ReadOff(picks, RosterOf(picks))
  {
  }

  /** The roster record read off the placements. */
  predicate ReadOff(picks: seq<Pick>, r: RosterSlots) {
    forall i :: 0 <= i < 9 ==> Fields(r)[i] == FieldOf(picks, i)
  }

  /** Every filled key holds a placed player that fits the key's slot. */
  lemma RosterMembers(picks: seq<Pick>, players: seq<ProjectedPlayer>, r: RosterSlots)
    requires ReadOff(picks, r)
    requires forall k :: 0 <= k < |picks| ==> picks[k].player in players
    requires forall k :: 0 <= k < |picks| ==> Fits(picks[k].slot, picks[k].player.position, true)
    ensures forall i :: 0 <= i < 9 && Fields(r)[i].Some? ==>
      && Pick(SlotOfField(i), Fields(r)[i].value) in picks
      && Fields(r)[i].value in players
      && Fits(SlotOfField(i), Fields(r)[i].value.position, true)
  {
  }

  /** The lineup's names are exactly the names placed. */
  lemma RosterNames(picks: seq<Pick>, r: RosterSlots)
    requires ReadOff(picks, r)
    requires forall s :: |SlotPlayers(picks, s)| <= Cap(s, true)
    requires forall i :: 0 <= i < 9 && Fields(r)[i].Some? ==> Pick(SlotOfField(i), Fields(r)[i].value) in picks
    ensures NamesOf(picks) == FieldNames(r)
  {
    forall k | 0 <= k < |picks| ensures picks[k].player.player in FieldNames(r) {
      PickInSlot(picks, k);
      var s := picks[k].slot;
      var a :| 0 <= a < |SlotPlayers(picks, s)| && SlotPlayers(picks, s)[a] == picks[k].player;
      var i := FieldFor(s, a);
      assert Fields(r)[i] == Some(picks[k].player);
    }
    forall i | 0 <= i < 9 && Fields(r)[i].Some? ensures Fields(r)[i].value.player in NamesOf(picks) {
      var k :| 0 <= k < |picks| && picks[k] == Pick(SlotOfField(i), Fields(r)[i].value);
    }
  }

  /** No name fills two keys. */
  lemma RosterDistinct(picks: seq<Pick>, r: RosterSlots)
    requires ReadOff(picks, r) && DistinctNames(picks)
    requires forall i :: 0 <= i < 9 && Fields(r)[i].Some? ==> Pick(SlotOfField(i), Fields(r)[i].value) in picks
    ensures forall i, j :: 0 <= i < j < 9 && Fields(r)[i].Some? && Fields(r)[j].Some? ==>
      Fields(r)[i].value.player != Fields(r)[j].value.player
  {
    forall i, j | 0 <= i < j < 9 && Fields(r)[i].Some? && Fields(r)[j].Some?
      ensures Fields(r)[i].value.player != Fields(r)[j].value.player
    {
      if SlotOfField(i) != SlotOfField(j) {
        CrossSlotDistinct(picks, SlotOfField(i), SlotOfField(j), Fields(r)[i].value, Fields(r)[j].value);
      } else {
        SlotNamesDistinct(picks, SlotOfField(i));
        var sp := SlotPlayers(picks, SlotOfField(i));
        assert Fields(r)[i].value == sp[IndexOfField(i)] && Fields(r)[j].value == sp[IndexOfField(j)];
      }
    }
  }

  /** Every roster player is outranked at the last key of its slot. */
  lemma RosterOutranked(picks: seq<Pick>, players: seq<ProjectedPlayer>, r: RosterSlots)
    requires ReadOff(picks, r) && NamesOf(picks) == FieldNames(r)
    requires forall p, s :: p in players && Fits(s, p.position, true) ==> Covered(picks, s, p, true)
    ensures forall p, i :: p in players && 0 <= i < 9 && LastOfSlot(i) && Fits(SlotOfField(i), p.position, true) ==>
      Outranked(r, p, Fields(r)[i])
  {
  }

  /** The key holding entry `a` of slot `s`. */
  function FieldFor(s: Slot, a: nat): (i: nat)
    requires a < Cap(s, true)
    ensures i < 9 && SlotOfField(i) == s && IndexOfField(i) == a
  {
    match s
    case QBSlot => 0
    case RBSlot => if a == 0 then 1 else 2
    case WRSlot => if a == 0 then 3 else 4
    case TESlot => 5
    case FlexSlot => 6
    case KSlot => 7
    case DefSlot => 8
  }
}
