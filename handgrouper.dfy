/**
 * The `HandGrouper` namespace of scripts/Evaluator.ts: splitting the closed
 * tiles of a winning hand (the hand's closed tiles plus the winning tile)
 * into groups: seven pairs, the thirteen orphans, or melds and one pair found
 * by a greedy loop.
 *
 * `CreateClosedGroups` works on a fresh copy of the hand's tiles, so its
 * in-place `sort` and `splice` calls are modelled on a local sequence.
 */
module HandGrouper {
  import opened Wrappers
  import opened Tiles
  import opened Sequences
  import Ranks

  // ---------------------------------------------------------------------
  // The stable sort by rank (`closed_tiles.sort((a, b) => a.rank - b.rank)`)
  // ---------------------------------------------------------------------

  predicate SortedByRank(s: seq<Tile>) {
    forall a, b :: 0 <= a < b < |s| ==> s[a].rank <= s[b].rank
  }

  /** The tiles of `s` with rank `v`, in their order in `s`. */
  function WithRank(s: seq<Tile>, v: int): (r: seq<Tile>)
    ensures |r| <= |s|
  {
    if s == [] then []
    else WithRank(s[..|s| - 1], v) + (if s[|s| - 1].rank == v then [s[|s| - 1]] else [])
  }

  lemma WithRankPush(s: seq<Tile>, x: Tile, v: int)
    ensures WithRank(s + [x], v) == WithRank(s, v) + (if x.rank == v then [x] else [])
  {
    assert (s + [x])[..|s|] == s;
  }

  /** Places `x` after every tile of `sorted` whose rank is not above its own. */
  function InsertByRank(x: Tile, sorted: seq<Tile>): (r: seq<Tile>)
    ensures multiset(r) == multiset(sorted) + multiset{x}
    ensures |r| == |sorted| + 1
  {
    if sorted == [] || sorted[|sorted| - 1].rank <= x.rank then sorted + [x]
    else
      assert sorted == sorted[..|sorted| - 1] + [sorted[|sorted| - 1]];
      InsertByRank(x, sorted[..|sorted| - 1]) + [sorted[|sorted| - 1]]
  }

  lemma {:induction false} InsertByRankSorted(x: Tile, sorted: seq<Tile>)
    requires SortedByRank(sorted)
    ensures SortedByRank(InsertByRank(x, sorted))
    decreases |sorted|
  {
    if !(sorted == [] || sorted[|sorted| - 1].rank <= x.rank) {
      var init, last := sorted[..|sorted| - 1], sorted[|sorted| - 1];
      var r' := InsertByRank(x, init);
      InsertByRankSorted(x, init);
      forall a | 0 <= a < |r'|
        ensures r'[a].rank <= last.rank
      {
        assert r'[a] in multiset(init) + multiset{x};
      }
    }
  }

  /** Insertion keeps the tiles of each rank in order, `x` last among its rank. */
  lemma {:induction false} InsertByRankStable(x: Tile, sorted: seq<Tile>, v: int)
    ensures WithRank(InsertByRank(x, sorted), v) == WithRank(sorted, v) + (if x.rank == v then [x] else [])
    decreases |sorted|
  {
    if sorted == [] || sorted[|sorted| - 1].rank <= x.rank {
      WithRankPush(sorted, x, v);
    } else {
      var init, last := sorted[..|sorted| - 1], sorted[|sorted| - 1];
      var inserted := InsertByRank(x, init);
      var mine: seq<Tile> := if x.rank == v then [x] else [];
      var theirs: seq<Tile> := if last.rank == v then [last] else [];
      assert sorted == init + [last];
      calc {
        WithRank(InsertByRank(x, sorted), v);
        WithRank(inserted + [last], v);
        { WithRankPush(inserted, last, v); }
        WithRank(inserted, v) + theirs;
        { InsertByRankStable(x, init, v); }
        WithRank(init, v) + mine + theirs;
        { assert mine == [] || theirs == []; }
        WithRank(init, v) + theirs + mine;
        { WithRankPush(init, last, v); }
        WithRank(sorted, v) + mine;
      }
    }
  }

  /**
   * `Array.prototype.sort` with the comparator `a.rank - b.rank`, which is
   * stable: an insertion sort that keeps equal ranks in their given order.
   */
  function SortByRank(s: seq<Tile>): (r: seq<Tile>)
    ensures multiset(r) == multiset(s) && |r| == |s|
  {
    if s == [] then []
    else
      assert s == s[..|s| - 1] + [s[|s| - 1]];
      InsertByRank(s[|s| - 1], SortByRank(s[..|s| - 1]))
  }

  /** The sort orders by rank, keeps every tile, and keeps each rank's tiles in their order. */
  lemma {:induction false} SortByRankSortsStably(s: seq<Tile>)
    ensures SortedByRank(SortByRank(s))
    ensures forall v :: WithRank(SortByRank(s), v) == WithRank(s, v)
    decreases |s|
  {
    if s != [] {
      var init, last := s[..|s| - 1], s[|s| - 1];
      SortByRankSortsStably(init);
      InsertByRankSorted(last, SortByRank(init));
      forall v
        ensures WithRank(SortByRank(s), v) == WithRank(s, v)
      {
        InsertByRankStable(last, SortByRank(init), v);
        assert s == init + [last];
        WithRankPush(init, last, v);
      }
    }
  }

  // ---------------------------------------------------------------------
  // GetSevenPairs
  // ---------------------------------------------------------------------

  /** `pairs.findIndex(p => p[1] == i || p[1] == j) != -1`. */
  predicate Blocked(pairs: seq<(nat, nat)>, i: nat, j: nat) {
    exists p :: 0 <= p < |pairs| && (pairs[p].1 == i || pairs[p].1 == j)
  }

  /** The inner loop of `GetSevenPairs`: the first partner of `i` at or after `j`. */
  function PartnerFrom(tiles: seq<Tile>, pairs: seq<(nat, nat)>, i: nat, j: nat): (r: Option<nat>)
    requires i < |tiles|
    ensures r.Some? ==> j <= r.value < |tiles| && SoftEquals(tiles[i], tiles[r.value]) && !Blocked(pairs, i, r.value)
    decreases |tiles| - j
  {
    if j >= |tiles| then None
    else if !Blocked(pairs, i, j) && SoftEquals(tiles[i], tiles[j]) then Some(j)
    else PartnerFrom(tiles, pairs, i, j + 1)
  }

  /** The outer loop of `GetSevenPairs`, from position `i` with the pairs found so far. */
  function PairsFrom(tiles: seq<Tile>, i: nat, pairs: seq<(nat, nat)>): seq<(nat, nat)>
    decreases |tiles| - i
  {
    if i >= |tiles| then pairs
    else match PartnerFrom(tiles, pairs, i, i + 1)
      case Some(j) => PairsFrom(tiles, i + 1, pairs + [(i, j)])
      case None => PairsFrom(tiles, i + 1, pairs)
  }

  /** Both positions of each pair, in order. */
  function Positions(pairs: seq<(nat, nat)>): (r: seq<nat>)
    ensures |r| == 2 * |pairs|
  {
    if pairs == [] then []
    else Positions(pairs[..|pairs| - 1]) + [pairs[|pairs| - 1].0, pairs[|pairs| - 1].1]
  }

  /** What `PairsFrom` keeps true of the pairs it has found before position `i`. */
  predicate PairsSoFar(tiles: seq<Tile>, i: nat, pairs: seq<(nat, nat)>) {
    && (forall p :: 0 <= p < |pairs| ==>
          pairs[p].0 < i && pairs[p].0 < pairs[p].1 < |tiles| && SoftEquals(tiles[pairs[p].0], tiles[pairs[p].1]))
    && Distinct(Positions(pairs))
  }

  lemma {:induction false} PositionsMember(pairs: seq<(nat, nat)>, x: nat)
    ensures x in Positions(pairs) <==> exists p :: 0 <= p < |pairs| && (pairs[p].0 == x || pairs[p].1 == x)
    decreases |pairs|
  {
    if pairs != [] {
      var init := pairs[..|pairs| - 1];
      PositionsMember(init, x);
      if x in Positions(init) {
        var p :| 0 <= p < |init| && (init[p].0 == x || init[p].1 == x);
        assert pairs[p] == init[p];
      }
      if p :| 0 <= p < |pairs| && (pairs[p].0 == x || pairs[p].1 == x) {
        if p < |init| {
          assert init[p] == pairs[p];
        }
      }
    }
  }

  lemma PositionsPush(pairs: seq<(nat, nat)>, i: nat, j: nat)
    requires Distinct(Positions(pairs)) && i != j && i !in Positions(pairs) && j !in Positions(pairs)
    ensures Positions(pairs + [(i, j)]) == Positions(pairs) + [i, j]
    ensures Distinct(Positions(pairs + [(i, j)]))
  {
    assert (pairs + [(i, j)])[..|pairs|] == pairs;
    var ps := Positions(pairs) + [i, j];
    forall a, b | 0 <= a < b < |ps|
      ensures ps[a] != ps[b]
    {
      if b >= |Positions(pairs)| && a < |Positions(pairs)| {
        assert ps[a] in Positions(pairs);
      }
    }
  }

  /** The pairs found by `PairsFrom` are soft-equal, ordered and share no position. */
  lemma {:induction false} PairsFromKeepsInvariant(tiles: seq<Tile>, i: nat, pairs: seq<(nat, nat)>)
    requires i <= |tiles| && PairsSoFar(tiles, i, pairs)
    ensures PairsSoFar(tiles, |tiles|, PairsFrom(tiles, i, pairs))
    decreases |tiles| - i
  {
    if i < |tiles| {
      match PartnerFrom(tiles, pairs, i, i + 1)
      case Some(j) =>
        PairsSoFarPush(tiles, i, pairs, j);
        PairsFromKeepsInvariant(tiles, i + 1, pairs + [(i, j)]);
      case None =>
        PairsFromKeepsInvariant(tiles, i + 1, pairs);
    }
  }

  /** A new pair of `i` with an unblocked, soft-equal partner keeps the pairs apart. */
  lemma PairsSoFarPush(tiles: seq<Tile>, i: nat, pairs: seq<(nat, nat)>, j: nat)
    requires PairsSoFar(tiles, i, pairs)
    requires i < j < |tiles| && SoftEquals(tiles[i], tiles[j]) && !Blocked(pairs, i, j)
    ensures PairsSoFar(tiles, i + 1, pairs + [(i, j)])
  {
    PositionsMember(pairs, i);
    PositionsMember(pairs, j);
    PositionsPush(pairs, i, j);
    var pairs' := pairs + [(i, j)];
    forall p | 0 <= p < |pairs'|
      ensures pairs'[p].0 < i + 1 && pairs'[p].0 < pairs'[p].1 < |tiles| && SoftEquals(tiles[pairs'[p].0], tiles[pairs'[p].1])
    {
      if p < |pairs| {
        assert pairs'[p] == pairs[p];
      }
    }
  }

  /** The two tiles of each pair. */
  function PairGroups(tiles: seq<Tile>, pairs: seq<(nat, nat)>): (r: seq<seq<Tile>>)
    requires forall p :: 0 <= p < |pairs| ==> pairs[p].0 < |tiles| && pairs[p].1 < |tiles|
    ensures |r| == |pairs|
  {
    seq(|pairs|, p requires 0 <= p < |pairs| => [tiles[pairs[p].0], tiles[pairs[p].1]])
  }

  lemma {:induction false} PairGroupsArePicked(tiles: seq<Tile>, pairs: seq<(nat, nat)>)
    requires forall p :: 0 <= p < |pairs| ==> pairs[p].0 < |tiles| && pairs[p].1 < |tiles|
    ensures AllBelow(Positions(pairs), |tiles|)
    ensures Flatten(PairGroups(tiles, pairs)) == Pick(tiles, Positions(pairs))
    decreases |pairs|
  {
    if pairs != [] {
      var init, last := pairs[..|pairs| - 1], pairs[|pairs| - 1];
      PairGroupsArePicked(tiles, init);
      var g := [tiles[last.0], tiles[last.1]];
      assert PairGroups(tiles, pairs) == PairGroups(tiles, init) + [g];
      FlattenPush(PairGroups(tiles, init), g);
      assert Positions(pairs) == Positions(init) + [last.0, last.1];
      assert Pick(tiles, Positions(pairs)) == Pick(tiles, Positions(init)) + g;
    }
  }

  /** `GetSevenPairs` as a value: seven pairs found greedily among exactly fourteen tiles. */
  function SevenPairs(tiles: seq<Tile>): Option<seq<seq<Tile>>> {
    if |tiles| != 14 then None
    else
      var pairs := PairsFrom(tiles, 0, []);
      PairsFromKeepsInvariant(tiles, 0, []);
      if |pairs| != 7 then None else Some(PairGroups(tiles, pairs))
  }

  method GetSevenPairs(tiles: seq<Tile>) returns (r: Option<seq<seq<Tile>>>)
    ensures r == SevenPairs(tiles)
  {
    if |tiles| != 14 {
      return None;
    }
    var pairs: seq<(nat, nat)> := [];
    var i := 0;
    while i < |tiles|
      invariant 0 <= i <= |tiles|
      invariant PairsFrom(tiles, i, pairs) == PairsFrom(tiles, 0, [])
    {
      ghost var before := pairs;
      var j := i + 1;
      while j < |tiles|
        invariant i + 1 <= j <= |tiles| + 1
        invariant pairs == before
        invariant PartnerFrom(tiles, pairs, i, j) == PartnerFrom(tiles, pairs, i, i + 1)
      {
        if Blocked(pairs, i, j) {
          j := j + 1;
          continue;
        }
        if SoftEquals(tiles[i], tiles[j]) {
          pairs := pairs + [(i, j)];
          break;
        }
        j := j + 1;
      }
      i := i + 1;
    }
    PairsFromKeepsInvariant(tiles, 0, []);
    if |pairs| != 7 {
      return None;
    }
    return Some(PairGroups(tiles, pairs));
  }

  /** Seven pairs, when found, are seven soft-equal pairs using every tile once. */
  lemma SevenPairsPartition(tiles: seq<Tile>)
    requires SevenPairs(tiles).Some?
    ensures var groups := SevenPairs(tiles).value;
      && |groups| == 7
      && (forall g :: 0 <= g < 7 ==> IsPair(groups[g]))
      && multiset(Flatten(groups)) == multiset(tiles)
  {
    var pairs := PairsFrom(tiles, 0, []);
    PairsFromKeepsInvariant(tiles, 0, []);
    PairGroupsArePicked(tiles, pairs);
    PickAllIsPermutation(tiles, Positions(pairs));
  }

  // ---------------------------------------------------------------------
  // GetThirteenOrphans
  // ---------------------------------------------------------------------

  /** Why `CreateClosedGroups` throws (the thirteen-orphans check included). */
  datatype GroupError =
    | FourteenOrphans
    | LoopCountBroke
    | SingleTileLeft
    | BadMeld
    | NotMeldsAndPair
    | NoMeldFound
    | PairAlreadyMade
    | NoPairFound
    | SeveralPairs
    | MoreThanFourteen

  /** What the first loop of `GetThirteenOrphans` lets through: an honor suit, a One or a Nine. */
  predicate IsOrphanCandidate(t: Tile) {
    t.suit == Honor || t.rank == Ranks.One || t.rank == Ranks.Nine
  }

  /** `orphans.findIndex(g => g[0].softEquals(t))`, searching from position `from`. */
  function GroupOf(groups: seq<seq<Tile>>, t: Tile, from: nat): (r: Option<nat>)
    ensures r.Some? ==> from <= r.value < |groups| && |groups[r.value]| > 0 && SoftEquals(groups[r.value][0], t)
    ensures r.None? ==> forall g :: from <= g < |groups| && |groups[g]| > 0 ==> !SoftEquals(groups[g][0], t)
    decreases |groups| - from
  {
    if from >= |groups| then None
    else if |groups[from]| > 0 && SoftEquals(groups[from][0], t) then Some(from)
    else GroupOf(groups, t, from + 1)
  }

  /** One step of the grouping loop: join the first group headed by a soft-equal tile, or start one. */
  function AddToGroups(groups: seq<seq<Tile>>, t: Tile): seq<seq<Tile>> {
    match GroupOf(groups, t, 0)
    case Some(x) => groups[x := groups[x] + [t]]
    case None => groups + [[t]]
  }

  /** The groups the second loop of `GetThirteenOrphans` builds from `tiles`. */
  function OrphanGroups(tiles: seq<Tile>): seq<seq<Tile>> {
    if tiles == [] then [] else AddToGroups(OrphanGroups(tiles[..|tiles| - 1]), tiles[|tiles| - 1])
  }

  /** `GetThirteenOrphans` as a value: no answer (`None`), thirteen groups, or the error for fourteen. */
  function ThirteenOrphans(tiles: seq<Tile>): Result<Option<seq<seq<Tile>>>, GroupError> {
    if |tiles| != 14 then Success(None)
    else if exists k :: 0 <= k < |tiles| && !IsOrphanCandidate(tiles[k]) then Success(None)
    else
      var groups := OrphanGroups(tiles);
      if |groups| == 14 then Failure(FourteenOrphans)
      else if |groups| == 13 then Success(Some(groups))
      else Success(None)
  }

  method GetThirteenOrphans(tiles: seq<Tile>) returns (r: Result<Option<seq<seq<Tile>>>, GroupError>)
    ensures r == ThirteenOrphans(tiles)
  {
    if |tiles| != 14 {
      return Success(None);
    }
    var i := 0;
    while i < |tiles|
      invariant 0 <= i <= |tiles|
      invariant forall k :: 0 <= k < i ==> IsOrphanCandidate(tiles[k])
    {
      if tiles[i].suit == Honor {
        i := i + 1;
        continue;
      } else if tiles[i].rank == Ranks.One || tiles[i].rank == Ranks.Nine {
        i := i + 1;
        continue;
      } else {
        return Success(None);
      }
    }
    var orphans: seq<seq<Tile>> := [];
    i := 0;
    while i < |tiles|
      invariant 0 <= i <= |tiles|
      invariant orphans == OrphanGroups(tiles[..i])
    {
      assert tiles[..i + 1][..i] == tiles[..i];
      var index := GroupOf(orphans, tiles[i], 0);
      if index.Some? {
        orphans := orphans[index.value := orphans[index.value] + [tiles[i]]];
      } else {
        orphans := orphans + [[tiles[i]]];
      }
      i := i + 1;
    }
    assert tiles[..|tiles|] == tiles;
    if |orphans| == 14 {
      return Failure(FourteenOrphans);
    }
    if |orphans| == 13 {
      return Success(Some(orphans));
    }
    return Success(None);
  }

  /** Every group is non-empty and holds only tiles soft-equal to its head; no two heads are soft-equal. */
  predicate GroupedByHead(groups: seq<seq<Tile>>) {
    && (forall g :: 0 <= g < |groups| ==> |groups[g]| > 0)
    && (forall g, x :: 0 <= g < |groups| && 0 < x < |groups[g]| ==> SoftEquals(groups[g][0], groups[g][x]))
    && (forall a, b :: 0 <= a < b < |groups| ==> !SoftEquals(groups[a][0], groups[b][0]))
  }

  lemma AddToGroupsKeepsHeads(groups: seq<seq<Tile>>, t: Tile)
    requires GroupedByHead(groups)
    ensures GroupedByHead(AddToGroups(groups, t))
    ensures forall g :: 0 <= g < |AddToGroups(groups, t)| ==>
      AddToGroups(groups, t)[g][0] == t || (g < |groups| && AddToGroups(groups, t)[g][0] == groups[g][0])
  {
  }

  lemma AddToGroupsKeepsTiles(groups: seq<seq<Tile>>, t: Tile)
    ensures multiset(Flatten(AddToGroups(groups, t))) == multiset(Flatten(groups)) + multiset{t}
  {
    match GroupOf(groups, t, 0)
    case Some(x) =>
      FlattenExtendGroup(groups, x, t);
    case None =>
      FlattenPush(groups, [t]);
  }

  /**
   * The orphan groups partition the tiles: each group is headed by one of the
   * tiles and holds only tiles soft-equal to its head, and no two heads are
   * soft-equal.
   */
  lemma {:induction false} OrphanGroupsPartition(tiles: seq<Tile>)
    ensures multiset(Flatten(OrphanGroups(tiles))) == multiset(tiles)
    ensures GroupedByHead(OrphanGroups(tiles))
    ensures forall g :: 0 <= g < |OrphanGroups(tiles)| ==> OrphanGroups(tiles)[g][0] in tiles
    decreases |tiles|
  {
    if tiles != [] {
      var init, t := tiles[..|tiles| - 1], tiles[|tiles| - 1];
      OrphanGroupsPartition(init);
      assert tiles == init + [t];
      AddToGroupsKeepsHeads(OrphanGroups(init), t);
      AddToGroupsKeepsTiles(OrphanGroups(init), t);
    }
  }

  /** Which of the thirteen terminal and honor identities a tile has. */
  function OrphanCode(t: Tile): (c: nat)
    ensures c < 13
  {
    if t.suit == Honor then (if Ranks.GreenDragon <= t.rank <= Ranks.NorthWind then t.rank - 4 else 0)
    else
      (match t.suit case Dot => 2 case Character => 4 case _ => 0) + (if t.rank == Ranks.One then 0 else 1)
  }

  lemma OrphanCodeIdentifies(a: Tile, b: Tile)
    requires IsValidTile(a) && IsValidTile(b) && IsOrphanCandidate(a) && IsOrphanCandidate(b)
    requires OrphanCode(a) == OrphanCode(b)
    ensures SoftEquals(a, b)
  {
  }

  /**
   * The "14 orphans found" error of `GetThirteenOrphans` cannot happen for
   * tiles the constructor admits: there are only thirteen such identities.
   */
  lemma NoFourteenOrphans(tiles: seq<Tile>)
    requires forall k :: 0 <= k < |tiles| ==> IsValidTile(tiles[k])
    ensures ThirteenOrphans(tiles) != Failure(FourteenOrphans)
  {
    if |tiles| == 14 && forall k :: 0 <= k < |tiles| ==> IsOrphanCandidate(tiles[k]) {
      var groups := OrphanGroups(tiles);
      OrphanGroupsPartition(tiles);
      forall g | 0 <= g < |groups|
        ensures IsValidTile(groups[g][0]) && IsOrphanCandidate(groups[g][0])
      {
        var k :| 0 <= k < |tiles| && tiles[k] == groups[g][0];
      }
      HeadCodesBound(groups);
    }
  }

  /** Heads that are pairwise not soft-equal, all valid terminals or honors, number at most thirteen. */
  lemma HeadCodesBound(groups: seq<seq<Tile>>)
    requires GroupedByHead(groups)
    requires forall g :: 0 <= g < |groups| ==> IsValidTile(groups[g][0]) && IsOrphanCandidate(groups[g][0])
    ensures |groups| <= 13
  {
    var codes := seq(|groups|, g requires 0 <= g < |groups| => OrphanCode(groups[g][0]));
    forall a, b | 0 <= a < b < |codes|
      ensures codes[a] != codes[b]
    {
      if codes[a] == codes[b] {
        OrphanCodeIdentifies(groups[a][0], groups[b][0]);
      }
    }
    DistinctBelowBound(codes, 13);
  }

  // ---------------------------------------------------------------------
  // FindAnyMeld and FindNonSequenceTriplet: scans over i < j < k
  // ---------------------------------------------------------------------

  /** What a scan over position triples looks for. */
  datatype Shape = AnyTriplet | AnySequence | LoneTriplet

  /**
   * Some two other positions (neither `i`, `j` nor `k`) complete a sequence
   * with the tile at `i`: the inner search of `FindNonSequenceTriplet`.
   */
  predicate SequenceThrough(s: seq<Tile>, i: nat, j: nat, k: nat)
    requires i < |s|
  {
    exists x, y :: 0 <= x < y < |s| && x != i && x != j && x != k && y != i && y != j && y != k
      && IsSequence([s[i], s[x], s[y]])
  }

  predicate Fits(s: seq<Tile>, shape: Shape, i: nat, j: nat, k: nat)
    requires i < |s| && j < |s| && k < |s|
  {
    match shape
    case AnyTriplet => IsTriplet([s[i], s[j], s[k]])
    case AnySequence => IsSequence([s[i], s[j], s[k]])
    case LoneTriplet => IsTriplet([s[i], s[j], s[k]]) && (s[i].suit == Honor || !SequenceThrough(s, i, j, k))
  }

  /** The triple loop `for i, for j > i, for k > j`, resumed at (i, j, k): the first fitting triple. */
  function ScanFrom(s: seq<Tile>, shape: Shape, i: nat, j: nat, k: nat): (r: Option<(nat, nat, nat)>)
    requires i < j < k
    ensures r.Some? ==> r.value.0 < r.value.1 < r.value.2 < |s| && Fits(s, shape, r.value.0, r.value.1, r.value.2)
    decreases |s| - i, |s| - j, |s| - k
  {
    if i + 2 >= |s| then None
    else if j + 1 >= |s| then ScanFrom(s, shape, i + 1, i + 2, i + 3)
    else if k >= |s| then ScanFrom(s, shape, i, j + 1, j + 2)
    else if Fits(s, shape, i, j, k) then Some((i, j, k))
    else ScanFrom(s, shape, i, j, k + 1)
  }

  /** (a, b, c) comes at or after (i, j, k) in the scan's order. */
  predicate NotBefore(a: nat, b: nat, c: nat, i: nat, j: nat, k: nat) {
    a > i || (a == i && (b > j || (b == j && c >= k)))
  }

  /**
   * The scan answers the first fitting triple at or after its starting point,
   * and answers `None` only when no triple from there on fits.
   */
  lemma {:induction false} ScanFromIsFirst(s: seq<Tile>, shape: Shape, i: nat, j: nat, k: nat)
    requires i < j < k
    ensures match ScanFrom(s, shape, i, j, k)
      case None =>
        forall a, b, c :: 0 <= a < b < c < |s| && NotBefore(a, b, c, i, j, k) ==> !Fits(s, shape, a, b, c)
      case Some(u) =>
        forall a, b, c :: 0 <= a < b < c < |s| && NotBefore(a, b, c, i, j, k) && !NotBefore(a, b, c, u.0, u.1, u.2) ==>
          !Fits(s, shape, a, b, c)
    decreases |s| - i, |s| - j, |s| - k
  {
    if i + 2 >= |s| {
    } else if j + 1 >= |s| {
      ScanFromIsFirst(s, shape, i + 1, i + 2, i + 3);
    } else if k >= |s| {
      ScanFromIsFirst(s, shape, i, j + 1, j + 2);
    } else if Fits(s, shape, i, j, k) {
    } else {
      ScanFromIsFirst(s, shape, i, j, k + 1);
    }
  }

  method HasSequenceThrough(s: seq<Tile>, i: nat, j: nat, k: nat) returns (sequ: bool)
    requires i < |s|
    ensures sequ == SequenceThrough(s, i, j, k)
  {
    sequ := false;
    var x := 0;
    while x < |s| - 1 && !sequ
      invariant 0 <= x <= |s|
      invariant !sequ ==> forall x', y' ::
        (0 <= x' < x && x' < y' < |s| && x' != i && x' != j && x' != k && y' != i && y' != j && y' != k) ==>
        !IsSequence([s[i], s[x'], s[y']])
      invariant sequ ==> SequenceThrough(s, i, j, k)
    {
      if x != i && x != j && x != k {
        var y := x + 1;
        while y < |s| && !sequ
          invariant x + 1 <= y <= |s|
          invariant !sequ ==> forall y' :: x < y' < y && y' != i && y' != j && y' != k ==> !IsSequence([s[i], s[x], s[y']])
          invariant sequ ==> SequenceThrough(s, i, j, k)
        {
          if y != i && y != j && y != k {
            if IsSequence([s[i], s[x], s[y]]) {
              sequ := true;
            }
          }
          y := y + 1;
        }
      }
      x := x + 1;
    }
  }

  method FitsAt(s: seq<Tile>, shape: Shape, i: nat, j: nat, k: nat) returns (fits: bool)
    requires i < |s| && j < |s| && k < |s|
    ensures fits == Fits(s, shape, i, j, k)
  {
    match shape
    case AnyTriplet =>
      fits := IsTriplet([s[i], s[j], s[k]]);
    case AnySequence =>
      fits := IsSequence([s[i], s[j], s[k]]);
    case LoneTriplet =>
      fits := false;
      if IsTriplet([s[i], s[j], s[k]]) {
        var sequ := false;
        if s[i].suit != Honor {
          sequ := HasSequenceThrough(s, i, j, k);
        }
        fits := !sequ;
      }
  }

  /** The triple loop shared by `FindAnyMeld` (twice) and `FindNonSequenceTriplet`. */
  method ScanTriples(s: seq<Tile>, shape: Shape) returns (r: Option<(nat, nat, nat)>)
    ensures r == ScanFrom(s, shape, 0, 1, 2)
  {
    var i := 0;
    while i < |s| - 2
      invariant ScanFrom(s, shape, i, i + 1, i + 2) == ScanFrom(s, shape, 0, 1, 2)
    {
      var j := i + 1;
      while j < |s| - 1
        invariant i < j
        invariant ScanFrom(s, shape, i, j, j + 1) == ScanFrom(s, shape, 0, 1, 2)
      {
        var k := j + 1;
        while k < |s|
          invariant j < k
          invariant ScanFrom(s, shape, i, j, k) == ScanFrom(s, shape, 0, 1, 2)
        {
          var fits := FitsAt(s, shape, i, j, k);
          if fits {
            return Some((i, j, k));
          }
          k := k + 1;
        }
        j := j + 1;
      }
      i := i + 1;
    }
    return None;
  }

  /** `FindAnyMeld` as a value: the first triplet, else the first sequence. */
  function AnyMeld(s: seq<Tile>): (r: Option<(nat, nat, nat)>)
    ensures r.Some? ==> r.value.0 < r.value.1 < r.value.2 < |s| && IsMeld([s[r.value.0], s[r.value.1], s[r.value.2]])
  {
    match ScanFrom(s, AnyTriplet, 0, 1, 2)
    case Some(t) => Some(t)
    case None => ScanFrom(s, AnySequence, 0, 1, 2)
  }

  method FindAnyMeld(s: seq<Tile>) returns (r: Option<(nat, nat, nat)>)
    ensures r == AnyMeld(s)
  {
    r := ScanTriples(s, AnyTriplet);
    if r.Some? {
      return r;
    }
    r := ScanTriples(s, AnySequence);
  }

  /** `FindAnyMeld` answers `None` exactly when the tiles hold neither a triplet nor a sequence. */
  lemma AnyMeldNoneMeansNoMeld(s: seq<Tile>)
    ensures AnyMeld(s).None? <==>
      forall a, b, c :: 0 <= a < b < c < |s| ==> !IsTriplet([s[a], s[b], s[c]]) && !IsSequence([s[a], s[b], s[c]])
  {
    ScanFromIsFirst(s, AnyTriplet, 0, 1, 2);
    ScanFromIsFirst(s, AnySequence, 0, 1, 2);
    if AnyMeld(s).None? {
      forall a, b, c | 0 <= a < b < c < |s|
        ensures !IsTriplet([s[a], s[b], s[c]]) && !IsSequence([s[a], s[b], s[c]])
      {
        assert NotBefore(a, b, c, 0, 1, 2);
        assert !Fits(s, AnyTriplet, a, b, c) && !Fits(s, AnySequence, a, b, c);
      }
    }
  }

  /** `FindNonSequenceTriplet` as a value. */
  function NonSequenceTriplet(s: seq<Tile>): (r: Option<(nat, nat, nat)>)
    ensures r.Some? ==> r.value.0 < r.value.1 < r.value.2 < |s| && IsTriplet([s[r.value.0], s[r.value.1], s[r.value.2]])
  {
    ScanFrom(s, LoneTriplet, 0, 1, 2)
  }

  method FindNonSequenceTriplet(s: seq<Tile>) returns (r: Option<(nat, nat, nat)>)
    ensures r == NonSequenceTriplet(s)
  {
    r := ScanTriples(s, LoneTriplet);
  }

  /**
   * A triplet is answered only when its tile is an honor or no two other
   * tiles would make a sequence with it; one is missed only when none exists.
   */
  lemma NonSequenceTripletSpec(s: seq<Tile>)
    ensures match NonSequenceTriplet(s)
      case Some(u) => s[u.0].suit == Honor || !SequenceThrough(s, u.0, u.1, u.2)
      case None => forall a, b, c :: 0 <= a < b < c < |s| && IsTriplet([s[a], s[b], s[c]]) ==>
        s[a].suit != Honor && SequenceThrough(s, a, b, c)
  {
    ScanFromIsFirst(s, LoneTriplet, 0, 1, 2);
    if NonSequenceTriplet(s).None? {
      forall a, b, c | 0 <= a < b < c < |s| && IsTriplet([s[a], s[b], s[c]])
        ensures s[a].suit != Honor && SequenceThrough(s, a, b, c)
      {
        assert NotBefore(a, b, c, 0, 1, 2);
        assert !Fits(s, LoneTriplet, a, b, c);
      }
    }
  }

  // ---------------------------------------------------------------------
  // FindBestValidPairs
  // ---------------------------------------------------------------------

  /** Every pair is two positions in order whose tiles are soft-equal. */
  predicate SoftEqualPairs(s: seq<Tile>, pairs: seq<(nat, nat)>) {
    forall p :: 0 <= p < |pairs| ==> pairs[p].0 < pairs[p].1 < |s| && SoftEquals(s[pairs[p].0], s[pairs[p].1])
  }

  /** Some pair found so far has a second tile soft-equal to the tile at `i` or at `j`. */
  predicate UsedBy(s: seq<Tile>, pairs: seq<(nat, nat)>, i: nat, j: nat)
    requires i < |s| && j < |s|
  {
    exists y :: 0 <= y < |pairs| && pairs[y].1 < |s| && (SoftEquals(s[pairs[y].1], s[i]) || SoftEquals(s[pairs[y].1], s[j]))
  }

  /** Two other positions, neither of them `x`, form a three-tile meld with the tile at `x`. */
  predicate CanMeldWithout(s: seq<Tile>, x: nat)
    requires x < |s|
  {
    exists k, l :: 0 <= k < l < |s| && k != x && l != x && IsMeld([s[x], s[k], s[l]])
  }

  /** A meld with the tile at `x` uses position `k` and one of the positions in (k, l). */
  predicate MeldInRow(s: seq<Tile>, x: nat, k: nat, l: nat)
    requires x < |s| && k < |s| && l <= |s|
    decreases l
  {
    if l <= k + 1 then false
    else MeldInRow(s, x, k, l - 1) || (k != x && l - 1 != x && IsMeld([s[x], s[k], s[l - 1]]))
  }

  /** A meld with the tile at `x` uses some position below `k` first: the rows the `k` loop has finished. */
  predicate MeldInRows(s: seq<Tile>, x: nat, k: nat)
    requires x < |s| && k <= |s|
    decreases k
  {
    if k == 0 then false else MeldInRows(s, x, k - 1) || MeldInRow(s, x, k - 1, |s|)
  }

  lemma {:induction false} MeldInRowMeans(s: seq<Tile>, x: nat, k: nat, l: nat)
    requires x < |s| && k < |s| && l <= |s|
    ensures MeldInRow(s, x, k, l) <==>
      exists l' :: k < l' < l && k != x && l' != x && IsMeld([s[x], s[k], s[l']])
    decreases l
  {
    if l > k + 1 {
      MeldInRowMeans(s, x, k, l - 1);
    }
  }

  lemma {:induction false} MeldInRowsMeans(s: seq<Tile>, x: nat, k: nat)
    requires x < |s| && k <= |s|
    ensures MeldInRows(s, x, k) <==>
      exists k', l' :: 0 <= k' < k && k' < l' < |s| && k' != x && l' != x && IsMeld([s[x], s[k'], s[l']])
    decreases k
  {
    if k > 0 {
      MeldInRowsMeans(s, x, k - 1);
      MeldInRowMeans(s, x, k - 1, |s|);
    }
  }

  /** The rows the `k` loop visits are all rows that can hold a meld. */
  lemma MeldInRowsIsCanMeld(s: seq<Tile>, x: nat)
    requires x < |s|
    ensures MeldInRows(s, x, |s| - 1) <==> CanMeldWithout(s, x)
  {
    MeldInRowsMeans(s, x, |s| - 1);
  }

  /** The `k`/`l` loops of `FindBestValidPairs`: whether each tile of the pair can also be melded. */
  method MeldOptions(s: seq<Tile>, i: nat, j: nat) returns (canMeldI: bool, canMeldJ: bool)
    requires i < |s| && j < |s|
    ensures canMeldI == CanMeldWithout(s, i) && canMeldJ == CanMeldWithout(s, j)
  {
    canMeldI, canMeldJ := false, false;
    var k := 0;
    while k < |s| - 1
      invariant 0 <= k <= |s| - 1
      invariant canMeldI == MeldInRows(s, i, k) && canMeldJ == MeldInRows(s, j, k)
    {
      var l := k + 1;
      while l < |s|
        invariant k + 1 <= l <= |s|
        invariant canMeldI == (MeldInRows(s, i, k) || MeldInRow(s, i, k, l))
        invariant canMeldJ == (MeldInRows(s, j, k) || MeldInRow(s, j, k, l))
      {
        if !canMeldI && k != i && l != i && IsMeld([s[i], s[k], s[l]]) {
          canMeldI := true;
        }
        if !canMeldJ && k != j && l != j && IsMeld([s[j], s[k], s[l]]) {
          canMeldJ := true;
        }
        l := l + 1;
      }
      k := k + 1;
    }
    MeldInRowsIsCanMeld(s, i);
    MeldInRowsIsCanMeld(s, j);
  }

  /** The `i`/`j` loops of `FindBestValidPairs`, resumed at (i, j) with the pairs kept so far. */
  function BestPairsFrom(s: seq<Tile>, i: nat, j: nat, pairs: seq<(nat, nat)>): seq<(nat, nat)>
    requires i < j
    decreases |s| - i, |s| - j
  {
    if i + 1 >= |s| then pairs
    else if j >= |s| then BestPairsFrom(s, i + 1, i + 2, pairs)
    else if UsedBy(s, pairs, i, j) then BestPairsFrom(s, i, j + 1, pairs)
    else if SoftEquals(s[i], s[j]) then
      if !CanMeldWithout(s, i) || !CanMeldWithout(s, j) then [(i, j)]
      else BestPairsFrom(s, i, j + 1, pairs + [(i, j)])
    else BestPairsFrom(s, i, j + 1, pairs)
  }

  lemma {:induction false} BestPairsFromKeepsPairs(s: seq<Tile>, i: nat, j: nat, pairs: seq<(nat, nat)>)
    requires i < j && SoftEqualPairs(s, pairs)
    ensures SoftEqualPairs(s, BestPairsFrom(s, i, j, pairs))
    decreases |s| - i, |s| - j
  {
    if i + 1 >= |s| {
    } else if j >= |s| {
      BestPairsFromKeepsPairs(s, i + 1, i + 2, pairs);
    } else if UsedBy(s, pairs, i, j) {
      BestPairsFromKeepsPairs(s, i, j + 1, pairs);
    } else if SoftEquals(s[i], s[j]) {
      if CanMeldWithout(s, i) && CanMeldWithout(s, j) {
        BestPairsFromKeepsPairs(s, i, j + 1, pairs + [(i, j)]);
      }
    } else {
      BestPairsFromKeepsPairs(s, i, j + 1, pairs);
    }
  }

  /** A pair at least one of whose tiles cannot be melded with two other tiles: it must be the hand's pair. */
  predicate ForcedPair(s: seq<Tile>, pr: (nat, nat)) {
    pr.0 < pr.1 < |s| && (!CanMeldWithout(s, pr.0) || !CanMeldWithout(s, pr.1))
  }

  /** Pairs both of whose tiles can also be melded with two other tiles. */
  predicate MeldablePairs(s: seq<Tile>, pairs: seq<(nat, nat)>) {
    forall p :: 0 <= p < |pairs| ==>
      pairs[p].0 < pairs[p].1 < |s| && CanMeldWithout(s, pairs[p].0) && CanMeldWithout(s, pairs[p].1)
  }

  lemma MeldablePairsPush(s: seq<Tile>, pairs: seq<(nat, nat)>, i: nat, j: nat)
    requires MeldablePairs(s, pairs) && i < j < |s| && CanMeldWithout(s, i) && CanMeldWithout(s, j)
    ensures MeldablePairs(s, pairs + [(i, j)])
  {
  }

  /** One step of the `i`/`j` loops: the forced pair returned at once, or the loops resumed at the next (i, j). */
  lemma BestPairsStep(s: seq<Tile>, i: nat, j: nat, pairs: seq<(nat, nat)>)
    returns (forced: bool, i': nat, j': nat, pairs': seq<(nat, nat)>)
    requires i < j && i + 1 < |s| && MeldablePairs(s, pairs)
    ensures forced ==> BestPairsFrom(s, i, j, pairs) == [(i, j)] && ForcedPair(s, (i, j))
    ensures !forced ==> i' < j' && MeldablePairs(s, pairs') && BestPairsFrom(s, i, j, pairs) == BestPairsFrom(s, i', j', pairs')
    ensures !forced ==> (i' == i + 1 && j' == i + 2) || (i' == i && j' == j + 1 && j < |s|)
  {
    forced, i', j', pairs' := false, i, j + 1, pairs;
    if j >= |s| {
      i', j' := i + 1, i + 2;
    } else if !UsedBy(s, pairs, i, j) && SoftEquals(s[i], s[j]) {
      if CanMeldWithout(s, i) && CanMeldWithout(s, j) {
        pairs' := pairs + [(i, j)];
        MeldablePairsPush(s, pairs, i, j);
      } else {
        forced := true;
      }
    }
  }

  /**
   * The loops answer either one pair that cannot be split into melds, which
   * they return at once, or the pairs kept, each of whose tiles could also
   * be melded.
   */
  lemma {:induction false} BestPairsFromForcedOrMeldable(s: seq<Tile>, i: nat, j: nat, pairs: seq<(nat, nat)>)
    requires i < j && MeldablePairs(s, pairs)
    ensures var r := BestPairsFrom(s, i, j, pairs);
      (|r| == 1 && ForcedPair(s, r[0])) || MeldablePairs(s, r)
    decreases |s| - i, |s| - j
  {
    if i + 1 < |s| {
      var forced, i', j', pairs' := BestPairsStep(s, i, j, pairs);
      if !forced {
        BestPairsFromForcedOrMeldable(s, i', j', pairs');
      }
    }
  }

  /** What `FindBestValidPairs` answers: the forced pair alone, or soft-equal pairs whose tiles can all be melded. */
  lemma BestValidPairsMeaning(s: seq<Tile>)
    ensures var r := BestValidPairs(s);
      && SoftEqualPairs(s, r)
      && ((|r| == 1 && ForcedPair(s, r[0])) || MeldablePairs(s, r))
  {
    BestPairsFromForcedOrMeldable(s, 0, 1, []);
  }

  /** `FindBestValidPairs` as a value. */
  function BestValidPairs(s: seq<Tile>): (r: seq<(nat, nat)>)
    ensures SoftEqualPairs(s, r)
  {
    BestPairsFromKeepsPairs(s, 0, 1, []);
    BestPairsFrom(s, 0, 1, [])
  }

  /**
   * One pass of the `j` loop of `FindBestValidPairs` for row `i`: either the
   * single pair the function returns early, or the pairs kept after the row.
   */
  method BestPairsRow(s: seq<Tile>, i: nat, pairs: seq<(nat, nat)>) returns (early: bool, kept: seq<(nat, nat)>)
    requires i + 1 < |s|
    ensures early ==> kept == BestPairsFrom(s, i, i + 1, pairs)
    ensures !early ==> BestPairsFrom(s, i + 1, i + 2, kept) == BestPairsFrom(s, i, i + 1, pairs)
  {
    kept := pairs;
    var j := i + 1;
    while j < |s|
      invariant i < j
      invariant BestPairsFrom(s, i, j, kept) == BestPairsFrom(s, i, i + 1, pairs)
    {
      if UsedBy(s, kept, i, j) {
        j := j + 1;
        continue;
      }
      if SoftEquals(s[i], s[j]) {
        var canMeldI, canMeldJ := MeldOptions(s, i, j);
        if canMeldI == false || canMeldJ == false {
          return true, [(i, j)];
        } else {
          kept := kept + [(i, j)];
        }
      }
      j := j + 1;
    }
    early := false;
  }

  method FindBestValidPairs(s: seq<Tile>) returns (pairs: seq<(nat, nat)>)
    ensures pairs == BestValidPairs(s)
  {
    pairs := [];
    var i := 0;
    while i < |s| - 1
      invariant BestPairsFrom(s, i, i + 1, pairs) == BestValidPairs(s)
    {
      var early, kept := BestPairsRow(s, i, pairs);
      if early {
        return kept;
      }
      pairs := kept;
      i := i + 1;
    }
  }

  // ---------------------------------------------------------------------
  // CreateClosedGroups
  // ---------------------------------------------------------------------

  /** The three `splice(x, 1)` calls, highest position first. */
  function RemoveTriple(s: seq<Tile>, t: (nat, nat, nat)): (r: seq<Tile>)
    requires t.0 < t.1 < t.2 < |s|
    ensures |r| == |s| - 3
    ensures multiset(r) + multiset([s[t.0], s[t.1], s[t.2]]) == multiset(s)
  {
    var r1 := RemoveAt(s, t.2);
    var r2 := RemoveAt(r1, t.1);
    assert r1[t.1] == s[t.1] && r2[t.0] == s[t.0];
    RemoveAt(r2, t.0)
  }

  /** The two `splice(x, 1)` calls for a pair, higher position first. */
  function RemovePair(s: seq<Tile>, p: (nat, nat)): (r: seq<Tile>)
    requires p.0 < p.1 < |s|
    ensures |r| == |s| - 2
    ensures multiset(r) + multiset([s[p.0], s[p.1]]) == multiset(s)
  {
    var r1 := RemoveAt(s, p.1);
    assert r1[p.0] == s[p.0];
    RemoveAt(r1, p.0)
  }

  /** The outcome of one pass of the `CreateClosedGroups` loop: a throw, or one more group. */
  datatype Progress =
    | Stop(error: GroupError)
    | Grouped(group: seq<Tile>, rest: seq<Tile>, createdPair: bool, sorted: bool)

  /** The `switch` cases of the loop, by the number of tiles left. */
  datatype Case = LastTile | LastPair | LastMeld | Unsplittable | MeldNext | TripletOrPairNext | TooMany

  function CaseOf(n: nat): Case {
    if n == 1 then LastTile
    else if n == 2 then LastPair
    else if n == 3 then LastMeld
    else if n == 4 || n == 7 || n == 10 || n == 13 then Unsplittable
    else if n == 5 || n == 6 || n == 9 || n == 12 then MeldNext
    else if n == 8 || n == 11 || n == 14 then TripletOrPairNext
    else TooMany
  }

  /** One pass of the loop's `switch` on the number of tiles left. */
  function Step(rest: seq<Tile>, createdPair: bool, sorted: bool): Progress
    requires |rest| > 0
  {
    match CaseOf(|rest|)
    case LastTile => Stop(SingleTileLeft)
    case LastPair =>
      if IsPair(rest) then Grouped(rest, [], createdPair, sorted) else Stop(SingleTileLeft)
    case LastMeld =>
      if IsMeld(rest) then Grouped(rest, [], createdPair, sorted) else Stop(BadMeld)
    case Unsplittable => Stop(NotMeldsAndPair)
    case MeldNext =>
      var tiles := if sorted then rest else SortByRank(rest);
      (match AnyMeld(tiles)
       case None => Stop(NoMeldFound)
       case Some(t) => Grouped([tiles[t.0], tiles[t.1], tiles[t.2]], RemoveTriple(tiles, t), createdPair, true))
    case TripletOrPairNext =>
      if createdPair then Stop(PairAlreadyMade)
      else (match NonSequenceTriplet(rest)
        case Some(t) => Grouped([rest[t.0], rest[t.1], rest[t.2]], RemoveTriple(rest, t), createdPair, sorted)
        case None =>
          var pairs := BestValidPairs(rest);
          if |pairs| == 0 then Stop(NoPairFound)
          else if |pairs| == 1 then Grouped([rest[pairs[0].0], rest[pairs[0].1]], RemovePair(rest, pairs[0]), true, sorted)
          else Stop(SeveralPairs))
    case TooMany => Stop(MoreThanFourteen)
  }

  /**
   * The `while` loop of `CreateClosedGroups`, resumed with the tiles still to
   * group, the groups found, its two flags and its iteration count.
   */
  function Reduce(rest: seq<Tile>, groups: seq<seq<Tile>>, createdPair: bool, sorted: bool, loopCount: nat)
    : Result<seq<seq<Tile>>, GroupError>
    requires loopCount <= 10
    decreases 10 - loopCount, 1
  {
    if |rest| == 0 then Success(groups)
    else if loopCount + 1 > 10 then Failure(LoopCountBroke)
    else Proceed(Step(rest, createdPair, sorted), groups, loopCount + 1)
  }

  /** The loop after one pass: stop on its error, or resume with the group it made. */
  function Proceed(p: Progress, groups: seq<seq<Tile>>, loopCount: nat): Result<seq<seq<Tile>>, GroupError>
    requires loopCount <= 10
    decreases 10 - loopCount, 2
  {
    match p
    case Stop(e) => Failure(e)
    case Grouped(g, rest', createdPair', sorted') => Reduce(rest', groups + [g], createdPair', sorted', loopCount)
  }

  /** `CreateClosedGroups` as a value: seven pairs, else the thirteen orphans, else the loop. */
  function ClosedGroups(tiles: seq<Tile>): Result<seq<seq<Tile>>, GroupError> {
    match SevenPairs(tiles)
    case Some(groups) => Success(groups)
    case None =>
      match ThirteenOrphans(tiles)
      case Failure(e) => Failure(e)
      case Success(Some(groups)) => Success(groups)
      case Success(None) => Reduce(tiles, [], false, false, 0)
  }

  /** The body of the loop of `CreateClosedGroups` after its iteration count is checked. */
  method GroupStep(rest: seq<Tile>, createdPair: bool, sorted: bool) returns (p: Progress)
    requires |rest| > 0
    ensures p == Step(rest, createdPair, sorted)
  {
    match CaseOf(|rest|)
    case LastTile =>
      return Stop(SingleTileLeft);
    case LastPair =>
      if IsPair(rest) {
        return Grouped(rest, [], createdPair, sorted);
      }
      return Stop(SingleTileLeft);
    case LastMeld =>
      if IsMeld(rest) {
        return Grouped(rest, [], createdPair, sorted);
      }
      return Stop(BadMeld);
    case Unsplittable =>
      return Stop(NotMeldsAndPair);
    case MeldNext =>
      p := TakeMeld(rest, createdPair, sorted);
    case TripletOrPairNext =>
      p := TakeTripletOrPair(rest, createdPair, sorted);
    case TooMany =>
      return Stop(MoreThanFourteen);
  }

  /** The pass that takes any meld out, sorting the tiles first. */
  method TakeMeld(rest: seq<Tile>, createdPair: bool, sorted: bool) returns (p: Progress)
    requires |rest| > 0 && CaseOf(|rest|) == MeldNext
    ensures p == Step(rest, createdPair, sorted)
  {
    var tiles := rest;
    if !sorted {
      tiles := SortByRank(tiles);
    }
    var foundMeld := FindAnyMeld(tiles);
    if foundMeld.None? {
      return Stop(NoMeldFound);
    }
    var t := foundMeld.value;
    var group := [tiles[t.0], tiles[t.1], tiles[t.2]];
    tiles := RemoveAt(tiles, t.2);
    tiles := RemoveAt(tiles, t.1);
    tiles := RemoveAt(tiles, t.0);
    return Grouped(group, tiles, createdPair, true);
  }

  /** The pass that takes a triplet out, or else the pair. */
  method TakeTripletOrPair(rest: seq<Tile>, createdPair: bool, sorted: bool) returns (p: Progress)
    requires |rest| > 0 && CaseOf(|rest|) == TripletOrPairNext
    ensures p == Step(rest, createdPair, sorted)
  {
    if createdPair {
      return Stop(PairAlreadyMade);
    }
    var triplet := FindNonSequenceTriplet(rest);
    if triplet.Some? {
      var t := triplet.value;
      var group := [rest[t.0], rest[t.1], rest[t.2]];
      var tiles := RemoveAt(rest, t.2);
      tiles := RemoveAt(tiles, t.1);
      tiles := RemoveAt(tiles, t.0);
      return Grouped(group, tiles, createdPair, sorted);
    }
    var pairs := FindBestValidPairs(rest);
    if |pairs| <= 0 {
      return Stop(NoPairFound);
    } else if |pairs| == 1 {
      var group := [rest[pairs[0].0], rest[pairs[0].1]];
      var tiles := RemoveAt(rest, pairs[0].1);
      tiles := RemoveAt(tiles, pairs[0].0);
      return Grouped(group, tiles, true, sorted);
    }
    return Stop(SeveralPairs);
  }

  /** Seven pairs or thirteen orphans: the shapes answered before the loop. */
  predicate SpecialShape(tiles: seq<Tile>) {
    SevenPairs(tiles).Some? || (ThirteenOrphans(tiles).Success? && ThirteenOrphans(tiles).value.Some?)
  }

  /**
   * `CreateClosedGroups`, with `left` the contents of its argument array when
   * it returns: untouched for the special shapes, emptied by the loop otherwise.
   */
  method CreateClosedGroups(closedTiles: seq<Tile>) returns (r: Result<seq<seq<Tile>>, GroupError>, left: seq<Tile>)
    ensures r == ClosedGroups(closedTiles)
    ensures r.Success? ==> left == (if SpecialShape(closedTiles) then closedTiles else [])
  {
    left := closedTiles;
    var specialGroup := GetSevenPairs(closedTiles);
    if specialGroup.Some? {
      return Success(specialGroup.value), left;
    }
    var orphans := GetThirteenOrphans(closedTiles);
    if orphans.Failure? {
      return Failure(orphans.error), left;
    }
    if orphans.value.Some? {
      return Success(orphans.value.value), left;
    }
    var rest := closedTiles;
    var groups: seq<seq<Tile>> := [];
    var createdPair := false;
    var sorted := false;
    var loopCount := 0;
    while |rest| > 0
      invariant loopCount <= 10
      invariant Reduce(rest, groups, createdPair, sorted, loopCount) == Reduce(closedTiles, [], false, false, 0)
      decreases 10 - loopCount
    {
      loopCount := loopCount + 1;
      if loopCount > 10 {
        return Failure(LoopCountBroke), rest;
      }
      var progress := GroupStep(rest, createdPair, sorted);
      if progress.Stop? {
        return Failure(progress.error), rest;
      }
      groups := groups + [progress.group];
      rest, createdPair, sorted := progress.rest, progress.createdPair, progress.sorted;
    }
    return Success(groups), rest;
  }

  /** A group the loop can produce: a pair, or a three-tile meld. */
  predicate IsLoopGroup(g: seq<Tile>) {
    IsPair(g) || (|g| == 3 && IsMeld(g))
  }

  /** How many of the groups are two-tile groups. */
  function PairCount(groups: seq<seq<Tile>>): nat {
    if groups == [] then 0
    else PairCount(groups[..|groups| - 1]) + (if |groups[|groups| - 1]| == 2 then 1 else 0)
  }

  /** The one pair the loop still makes from `rest`: none once made, and none unless two tiles are over. */
  function PairsToMake(left: nat, createdPair: bool): nat {
    if createdPair || left % 3 != 2 then 0 else 1
  }

  /** A pass that turns `left` tiles into a group of `size` and `left'` tiles keeps the pair still to make. */
  lemma PairsToMakeStep(left: nat, createdPair: bool, size: nat, left': nat, createdPair': bool)
    requires size == 2 || size == 3
    requires left == size + left'
    requires size == 2 ==> !createdPair && (createdPair' || left' == 0)
    requires size == 3 ==> createdPair' == createdPair
    requires createdPair' ==> left' % 3 == 0
    ensures PairsToMake(left, createdPair) == (if size == 2 then 1 else 0) + PairsToMake(left', createdPair')
  {
  }

  /**
   * One pass removed exactly the tiles of the group it made, which is a pair
   * or a meld; a pair is made only while none exists, and once one exists the
   * number of tiles left stays a multiple of three.
   */
  predicate KeepsTiles(rest: seq<Tile>, createdPair: bool, p: Progress)
    requires p.Grouped?
  {
    && multiset(p.group) + multiset(p.rest) == multiset(rest)
    && |p.group| + |p.rest| == |rest|
    && IsLoopGroup(p.group)
    && (|p.group| == 2 ==> !createdPair && (p.createdPair || p.rest == []))
    && (|p.group| == 3 ==> p.createdPair == createdPair)
    && (p.createdPair ==> |p.rest| % 3 == 0)
  }

  lemma StepKeepsTilesLast(rest: seq<Tile>, createdPair: bool, sorted: bool)
    requires CaseOf(|rest|) in {LastPair, LastMeld} && (createdPair ==> |rest| % 3 == 0)
    requires Step(rest, createdPair, sorted).Grouped?
    ensures KeepsTiles(rest, createdPair, Step(rest, createdPair, sorted))
  {
    assert rest + [] == rest;
  }

  /** Taking the meld at `t` out of a rearrangement `tiles` of `rest` keeps the tiles. */
  lemma TripleKeeps(rest: seq<Tile>, tiles: seq<Tile>, t: (nat, nat, nat), createdPair: bool, sorted: bool)
    requires multiset(tiles) == multiset(rest) && |tiles| == |rest|
    requires t.0 < t.1 < t.2 < |tiles| && IsMeld([tiles[t.0], tiles[t.1], tiles[t.2]])
    requires createdPair ==> |rest| % 3 == 0
    ensures KeepsTiles(rest, createdPair, Grouped([tiles[t.0], tiles[t.1], tiles[t.2]], RemoveTriple(tiles, t), createdPair, sorted))
  {
  }

  /** Taking the soft-equal pair at `q` out of `rest`, when no pair exists yet, keeps the tiles. */
  lemma PairKeeps(rest: seq<Tile>, q: (nat, nat), sorted: bool)
    requires q.0 < q.1 < |rest| && SoftEquals(rest[q.0], rest[q.1])
    requires |rest| % 3 == 2
    ensures KeepsTiles(rest, false, Grouped([rest[q.0], rest[q.1]], RemovePair(rest, q), true, sorted))
  {
  }

  lemma StepKeepsTilesMeld(rest: seq<Tile>, createdPair: bool, sorted: bool)
    requires CaseOf(|rest|) == MeldNext && (createdPair ==> |rest| % 3 == 0)
    requires Step(rest, createdPair, sorted).Grouped?
    ensures KeepsTiles(rest, createdPair, Step(rest, createdPair, sorted))
  {
    var tiles := if sorted then rest else SortByRank(rest);
    TripleKeeps(rest, tiles, AnyMeld(tiles).value, createdPair, true);
  }

  lemma StepKeepsTilesTripletOrPair(rest: seq<Tile>, createdPair: bool, sorted: bool)
    requires CaseOf(|rest|) == TripletOrPairNext && (createdPair ==> |rest| % 3 == 0)
    requires Step(rest, createdPair, sorted).Grouped?
    ensures KeepsTiles(rest, createdPair, Step(rest, createdPair, sorted))
  {
    match NonSequenceTriplet(rest)
    case Some(t) =>
      TripleKeeps(rest, rest, t, createdPair, sorted);
    case None =>
      StepKeepsTilesPair(rest, createdPair, sorted);
  }

  lemma StepKeepsTilesPair(rest: seq<Tile>, createdPair: bool, sorted: bool)
    requires CaseOf(|rest|) == TripletOrPairNext && NonSequenceTriplet(rest).None?
    requires Step(rest, createdPair, sorted).Grouped?
    ensures KeepsTiles(rest, createdPair, Step(rest, createdPair, sorted))
  {
    var pairs := BestValidPairs(rest);
    assert |rest| % 3 == 2;
    assert !createdPair && |pairs| == 1;
    PairKeeps(rest, pairs[0], sorted);
  }

  lemma StepKeepsTiles(rest: seq<Tile>, createdPair: bool, sorted: bool)
    requires |rest| > 0 && (createdPair ==> |rest| % 3 == 0)
    requires Step(rest, createdPair, sorted).Grouped?
    ensures KeepsTiles(rest, createdPair, Step(rest, createdPair, sorted))
  {
    match CaseOf(|rest|)
    case MeldNext => StepKeepsTilesMeld(rest, createdPair, sorted);
    case TripletOrPairNext => StepKeepsTilesTripletOrPair(rest, createdPair, sorted);
    case _ => StepKeepsTilesLast(rest, createdPair, sorted);
  }

  /**
   * What the loop keeps: the groups plus the tiles left are the tiles it
   * started with, every new group is a pair or a meld, and at most one pair is
   * made, so three times the number of new groups is at most the number of
   * tiles (plus one while no pair has been made).
   */
  lemma {:induction false} ReduceGroupsTiles(rest: seq<Tile>, groups: seq<seq<Tile>>, createdPair: bool, sorted: bool, loopCount: nat)
    requires loopCount <= 10
    requires createdPair ==> |rest| % 3 == 0
    requires Reduce(rest, groups, createdPair, sorted, loopCount).Success?
    ensures var r := Reduce(rest, groups, createdPair, sorted, loopCount).value;
      && |groups| <= |r| && r[..|groups|] == groups
      && multiset(Flatten(r)) == multiset(Flatten(groups)) + multiset(rest)
      && (forall x :: |groups| <= x < |r| ==> IsLoopGroup(r[x]))
      && 3 * (|r| - |groups|) <= |rest| + (if createdPair then 0 else 1)
    decreases 10 - loopCount
  {
    if |rest| > 0 {
      var p := Step(rest, createdPair, sorted);
      var groups' := groups + [p.group];
      assert Reduce(rest, groups, createdPair, sorted, loopCount) == Reduce(p.rest, groups', p.createdPair, p.sorted, loopCount + 1);
      StepKeepsTiles(rest, createdPair, sorted);
      ReduceGroupsTiles(p.rest, groups', p.createdPair, p.sorted, loopCount + 1);
      var r := Reduce(p.rest, groups', p.createdPair, p.sorted, loopCount + 1).value;
      FlattenPush(groups, p.group);
      assert r[..|groups|] == r[..|groups'|][..|groups|] == groups;
      forall x | |groups| <= x < |r|
        ensures IsLoopGroup(r[x])
      {
        if x == |groups| {
          assert r[x] == groups'[x] == p.group;
        }
      }
    }
  }

  /**
   * The loop makes its one pair exactly when, with no pair made yet, the
   * number of tiles left is two more than a multiple of three.
   */
  lemma {:induction false} ReducePairCount(rest: seq<Tile>, groups: seq<seq<Tile>>, createdPair: bool, sorted: bool, loopCount: nat)
    requires loopCount <= 10
    requires createdPair ==> |rest| % 3 == 0
    requires Reduce(rest, groups, createdPair, sorted, loopCount).Success?
    ensures PairCount(Reduce(rest, groups, createdPair, sorted, loopCount).value) == PairCount(groups) + PairsToMake(|rest|, createdPair)
    decreases 10 - loopCount
  {
    if |rest| > 0 {
      var p := StepKept(rest, createdPair, sorted);
      assert Reduce(rest, groups, createdPair, sorted, loopCount) == Proceed(p, groups, loopCount + 1);
      if p.Grouped? {
        var groups' := groups + [p.group];
        assert Proceed(p, groups, loopCount + 1) == Reduce(p.rest, groups', p.createdPair, p.sorted, loopCount + 1);
        ReducePairCount(p.rest, groups', p.createdPair, p.sorted, loopCount + 1);
        assert groups'[..|groups|] == groups;
        assert PairCount(groups') == PairCount(groups) + (if |p.group| == 2 then 1 else 0);
        PairsToMakeStep(|rest|, createdPair, |p.group|, |p.rest|, p.createdPair);
      }
    }
  }

  /** One pass, with what `KeepsTiles` says of it when it makes a group. */
  lemma StepKept(rest: seq<Tile>, createdPair: bool, sorted: bool) returns (p: Progress)
    requires |rest| > 0 && (createdPair ==> |rest| % 3 == 0)
    ensures p == Step(rest, createdPair, sorted)
    ensures p.Grouped? ==> KeepsTiles(rest, createdPair, p)
  {
    p := Step(rest, createdPair, sorted);
    if p.Grouped? {
      StepKeepsTiles(rest, createdPair, sorted);
    }
  }

  /** The loop stops with "pair already made" only when a pair exists and two tiles too many remain. */
  lemma StepPairAlreadyMade(rest: seq<Tile>, createdPair: bool, sorted: bool)
    requires |rest| > 0 && Step(rest, createdPair, sorted) == Stop(PairAlreadyMade)
    ensures createdPair && |rest| % 3 == 2
  {
  }

  /**
   * Neither the iteration guard nor the "pair already made" error ever fires:
   * every pass removes at least two tiles, at most fourteen are accepted, and
   * once the pair is made a multiple of three tiles is left.
   */
  lemma ReduceNeverBreaks(tiles: seq<Tile>)
    ensures Reduce(tiles, [], false, false, 0) != Failure(LoopCountBroke)
    ensures Reduce(tiles, [], false, false, 0) != Failure(PairAlreadyMade)
  {
    if |tiles| > 0 {
      var p := StepFacts(tiles, false, false);
      ProceedNeverBreaks(p, [], 1);
    }
  }

  /** `ReduceNeverBreaks` for the loop resumed after a pass. */
  lemma {:induction false} ProceedNeverBreaks(p: Progress, groups: seq<seq<Tile>>, loopCount: nat)
    requires 1 <= loopCount <= 10
    requires p != Stop(LoopCountBroke) && p != Stop(PairAlreadyMade)
    requires p.Grouped? ==> (p.createdPair ==> |p.rest| % 3 == 0) && 2 * loopCount + |p.rest| <= 14
    ensures Proceed(p, groups, loopCount) != Failure(LoopCountBroke)
    ensures Proceed(p, groups, loopCount) != Failure(PairAlreadyMade)
    decreases 10 - loopCount
  {
    if p.Grouped? && |p.rest| > 0 {
      var q := StepFacts(p.rest, p.createdPair, p.sorted);
      ProceedNeverBreaks(q, groups + [p.group], loopCount + 1);
    }
  }

  /** What `ReduceNeverBreaks` needs to know of one pass. */
  lemma StepFacts(rest: seq<Tile>, createdPair: bool, sorted: bool) returns (p: Progress)
    requires |rest| > 0 && (createdPair ==> |rest| % 3 == 0)
    ensures p == Step(rest, createdPair, sorted)
    ensures p.Grouped? ==> |rest| <= 14 && |p.rest| + 2 <= |rest| && (p.createdPair ==> |p.rest| % 3 == 0)
    ensures p != Stop(PairAlreadyMade) && p != Stop(LoopCountBroke)
  {
    p := StepErrors(rest, createdPair, sorted);
    if p.Grouped? {
      StepShrinks(rest, createdPair, sorted);
    } else if p.error == PairAlreadyMade {
      StepPairAlreadyMade(rest, createdPair, sorted);
    }
  }

  /** A pass that makes a group accepts at most fourteen tiles and removes at least two. */
  lemma StepShrinks(rest: seq<Tile>, createdPair: bool, sorted: bool)
    requires |rest| > 0 && (createdPair ==> |rest| % 3 == 0)
    requires Step(rest, createdPair, sorted).Grouped?
    ensures var p := Step(rest, createdPair, sorted);
      |rest| <= 14 && |p.rest| + 2 <= |rest| && (p.createdPair ==> |p.rest| % 3 == 0)
  {
    StepKeepsTiles(rest, createdPair, sorted);
    StepTooMany(rest, createdPair, sorted);
  }

  lemma StepTooMany(rest: seq<Tile>, createdPair: bool, sorted: bool)
    requires |rest| > 0
    ensures |rest| > 14 ==> Step(rest, createdPair, sorted) == Stop(MoreThanFourteen)
  {
    if |rest| > 14 {
      assert CaseOf(|rest|) == TooMany;
    }
  }

  /**
   * `CreateClosedGroups` never gives up on its iteration count and never finds
   * a second pair; for tiles the constructor admits it never reports fourteen
   * orphans.
   */
  lemma ClosedGroupsErrors(tiles: seq<Tile>)
    ensures ClosedGroups(tiles) != Failure(LoopCountBroke)
    ensures ClosedGroups(tiles) != Failure(PairAlreadyMade)
    ensures (forall k :: 0 <= k < |tiles| ==> IsValidTile(tiles[k])) ==> ClosedGroups(tiles) != Failure(FourteenOrphans)
  {
    var loop := Reduce(tiles, [], false, false, 0);
    ClosedGroupsFailures(tiles);
    ThirteenOrphansFailures(tiles);
    ReduceNeverBreaks(tiles);
    if forall k :: 0 <= k < |tiles| ==> IsValidTile(tiles[k]) {
      NoFourteenOrphans(tiles);
      ReduceNeverFourteenOrphans(tiles);
    }
  }

  /** A failure of `CreateClosedGroups` is the thirteen-orphans check's or the loop's. */
  lemma ClosedGroupsFailures(tiles: seq<Tile>)
    ensures ClosedGroups(tiles).Failure? ==>
      (ThirteenOrphans(tiles).Failure? && ClosedGroups(tiles).error == ThirteenOrphans(tiles).error)
      || ClosedGroups(tiles) == Reduce(tiles, [], false, false, 0)
  {
  }

  /** The thirteen-orphans check fails only on fourteen orphans. */
  lemma ThirteenOrphansFailures(tiles: seq<Tile>)
    ensures ThirteenOrphans(tiles).Failure? ==> ThirteenOrphans(tiles) == Failure(FourteenOrphans)
  {
  }

  /** The loop itself never reports fourteen orphans. */
  lemma ReduceNeverFourteenOrphans(tiles: seq<Tile>)
    ensures Reduce(tiles, [], false, false, 0) != Failure(FourteenOrphans)
  {
    if |tiles| > 0 {
      var p := StepErrors(tiles, false, false);
      ProceedNeverFourteenOrphans(p, [], 1);
    }
  }

  lemma {:induction false} ProceedNeverFourteenOrphans(p: Progress, groups: seq<seq<Tile>>, loopCount: nat)
    requires loopCount <= 10 && p != Stop(FourteenOrphans)
    ensures Proceed(p, groups, loopCount) != Failure(FourteenOrphans)
    decreases 10 - loopCount
  {
    if p.Grouped? && |p.rest| > 0 && loopCount < 10 {
      var q := StepErrors(p.rest, p.createdPair, p.sorted);
      ProceedNeverFourteenOrphans(q, groups + [p.group], loopCount + 1);
    }
  }

  /** A pass never reports fourteen orphans and never breaks off the loop itself. */
  lemma StepErrors(rest: seq<Tile>, createdPair: bool, sorted: bool) returns (p: Progress)
    requires |rest| > 0
    ensures p == Step(rest, createdPair, sorted)
    ensures p != Stop(FourteenOrphans) && p != Stop(LoopCountBroke)
  {
    p := Step(rest, createdPair, sorted);
    match CaseOf(|rest|)
    case MeldNext =>
      assert p.Stop? ==> p.error == NoMeldFound;
    case TripletOrPairNext =>
      assert p.Stop? ==> p.error in {PairAlreadyMade, NoPairFound, SeveralPairs};
    case _ =>
  }

  /** The loop refuses more than fourteen tiles. */
  lemma ReduceAcceptsAtMostFourteen(tiles: seq<Tile>)
    ensures |tiles| > 14 ==> Reduce(tiles, [], false, false, 0) == Failure(MoreThanFourteen)
  {
    if |tiles| > 14 {
      StepTooMany(tiles, false, false);
    }
  }

  /**
   * The groups `CreateClosedGroups` answers use every closed tile exactly
   * once. Seven groups are seven soft-equal pairs of fourteen tiles; thirteen
   * groups are the orphan groups of fourteen tiles, headed by pairwise
   * different identities; any other answer comes from the loop, so every
   * group is a pair or a three-tile meld and at most one is a pair.
   */
  lemma ClosedGroupsPartition(tiles: seq<Tile>)
    requires ClosedGroups(tiles).Success?
    ensures var r := ClosedGroups(tiles).value;
      && multiset(Flatten(r)) == multiset(tiles)
      && (|r| == 7 ==> |tiles| == 14 && forall g :: 0 <= g < 7 ==> IsPair(r[g]))
      && (|r| == 13 ==> |tiles| == 14 && GroupedByHead(r))
      && (|r| != 7 && |r| != 13 ==>
            && (forall g :: 0 <= g < |r| ==> IsLoopGroup(r[g]))
            && 3 * |r| <= |tiles| + 1
            && PairCount(r) == (if |tiles| % 3 == 2 then 1 else 0))
  {
    match SevenPairs(tiles)
    case Some(_) =>
      SevenPairsPartition(tiles);
    case None =>
      match ThirteenOrphans(tiles)
      case Success(Some(_)) =>
        OrphanGroupsPartition(tiles);
      case Success(None) =>
        ReduceGroupsTiles(tiles, [], false, false, 0);
        ReducePairCount(tiles, [], false, false, 0);
        ReduceAcceptsAtMostFourteen(tiles);
  }
}
