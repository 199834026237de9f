/**
 * The shape checks of the `Hand` class in scripts/Evaluator.ts: whether a
 * hand still counts as closed, and `ValidateHandAndTiles`, which rejects a
 * set of closed tiles, open groups and dora indicators that cannot be on the
 * table together.
 */
module Validation {
  import opened Wrappers
  import opened Tiles
  import opened Sequences
  import Ranks

  // ---------------------------------------------------------------------
  // isClosed
  // ---------------------------------------------------------------------

  /** `group.filter(tile => tile.rank == Rank.Back).length`. */
  function BackCount(g: seq<Tile>): (n: nat)
    ensures n <= |g|
  {
    if g == [] then 0
    else BackCount(g[..|g| - 1]) + (if g[|g| - 1].rank == Ranks.Back then 1 else 0)
  }

  /** A closed kan as the evaluator records it: four tiles, exactly two of them face down. */
  predicate IsConcealedKan(g: seq<Tile>) {
    |g| == 4 && BackCount(g) == 2
  }

  /** `Hand.isClosed`: no open group, or only closed kans. */
  predicate IsClosedHand(openGroups: seq<seq<Tile>>) {
    |openGroups| == 0 || forall x :: 0 <= x < |openGroups| ==> IsConcealedKan(openGroups[x])
  }

  // ---------------------------------------------------------------------
  // ValidateHandAndTiles
  // ---------------------------------------------------------------------

  /** Why `ValidateHandAndTiles` throws `InvalidHandAndTilesError`. */
  datatype HandError =
    | BackTileInClosed
    | OpenGroupNotMeld
    | KanTileInOtherOpenGroup
    | KanTileInClosed
    | KanTileInDora
    | FiveCopies
    | TooManyTiles
    | TooFewTiles
    | RedFivesOfOneSuit

  /** `tiles.some(t => t.softEquals(x))`. */
  predicate AnySoftEqual(tiles: seq<Tile>, x: Tile) {
    tiles != [] && (AnySoftEqual(tiles[..|tiles| - 1], x) || SoftEquals(tiles[|tiles| - 1], x))
  }

  /** `groups.some(g => g.some(t => t.softEquals(x)))`. */
  predicate AnyGroupSoftEqual(groups: seq<seq<Tile>>, x: Tile) {
    groups != [] && (AnyGroupSoftEqual(groups[..|groups| - 1], x) || AnySoftEqual(groups[|groups| - 1], x))
  }

  lemma {:induction false} AnySoftEqualMeans(tiles: seq<Tile>, x: Tile)
    ensures AnySoftEqual(tiles, x) <==> exists k :: 0 <= k < |tiles| && SoftEquals(tiles[k], x)
    decreases |tiles|
  {
    if tiles != [] {
      var init := tiles[..|tiles| - 1];
      AnySoftEqualMeans(init, x);
      if exists k :: 0 <= k < |tiles| && SoftEquals(tiles[k], x) {
        var k :| 0 <= k < |tiles| && SoftEquals(tiles[k], x);
        if k < |init| {
          assert init[k] == tiles[k];
        }
      }
    }
  }

  /** The checks the `forEach` over the open groups makes of group `i`. */
  function OpenGroupError(closed: seq<Tile>, open: seq<seq<Tile>>, dora: seq<Tile>, i: nat): Option<HandError>
    requires i < |open|
  {
    var g := open[i];
    if !IsMeld(g) then Some(OpenGroupNotMeld)
    else if |g| == 4 && (AnyGroupSoftEqual(open[i + 1..], g[0]) || AnyGroupSoftEqual(open[..i], g[0])) then
      Some(KanTileInOtherOpenGroup)
    else if |g| == 4 && AnySoftEqual(closed, g[0]) then Some(KanTileInClosed)
    else if |g| == 4 && AnySoftEqual(dora, g[0]) then Some(KanTileInDora)
    else None
  }

  /** The first error the `forEach` meets from group `i` on. */
  function OpenGroupsError(closed: seq<Tile>, open: seq<seq<Tile>>, dora: seq<Tile>, i: nat): Option<HandError>
    decreases |open| - i
  {
    if i >= |open| then None
    else match OpenGroupError(closed, open, dora, i)
      case Some(e) => Some(e)
      case None => OpenGroupsError(closed, open, dora, i + 1)
  }

  /** `allReveledTiles.filter(t => t.isRed)`. */
  function RedTiles(tiles: seq<Tile>): (r: seq<Tile>)
    ensures |r| <= |tiles|
    ensures forall k :: 0 <= k < |r| ==> r[k].isRed && r[k] in tiles
  {
    if tiles == [] then []
    else RedTiles(tiles[..|tiles| - 1]) + (if tiles[|tiles| - 1].isRed then [tiles[|tiles| - 1]] else [])
  }

  /** Red fives are acceptable when there is at most one, or each is of a different number suit. */
  predicate RedFivesOk(reds: seq<Tile>) {
    |reds| <= 1 ||
    ((forall k :: 0 <= k < |reds| ==> IsNumberSuit(reds[k].suit)) &&
     (forall k, l :: 0 <= k < l < |reds| ==> reds[k].suit != reds[l].suit))
  }

  /**
   * `ValidateHandAndTiles` as a value: `None` when it returns, otherwise the
   * error it throws first.
   */
  function ValidationError(closed: seq<Tile>, open: seq<seq<Tile>>, dora: seq<Tile>): Option<HandError> {
    if exists k :: 0 <= k < |closed| && closed[k].rank == Ranks.Back then Some(BackTileInClosed)
    else match OpenGroupsError(closed, open, dora, 0)
      case Some(e) => Some(e)
      case None =>
        var revealed := closed + dora + Flatten(open);
        var handCount := 14 - 3 * |open| - |closed|;
        if HasFiveCopies(revealed) then Some(FiveCopies)
        else if handCount < 0 then Some(TooManyTiles)
        else if handCount > 0 then Some(TooFewTiles)
        else if !RedFivesOk(RedTiles(revealed)) then Some(RedFivesOfOneSuit)
        else None
  }

  /** The loop over the red fives with its three suit flags. */
  method CheckRedFives(redFives: seq<Tile>) returns (ok: bool)
    ensures ok <==> RedFivesOk(redFives)
  {
    if |redFives| <= 1 {
      return true;
    }
    var bamboo, circle, character := false, false, false;
    var i := 0;
    while i < |redFives|
      invariant 0 <= i <= |redFives|
      invariant forall k :: 0 <= k < i ==> IsNumberSuit(redFives[k].suit)
      invariant forall k, l :: 0 <= k < l < i ==> redFives[k].suit != redFives[l].suit
      invariant bamboo <==> exists k :: 0 <= k < i && redFives[k].suit == Bamboo
      invariant circle <==> exists k :: 0 <= k < i && redFives[k].suit == Dot
      invariant character <==> exists k :: 0 <= k < i && redFives[k].suit == Character
    {
      var tile := redFives[i];
      if tile.suit == Bamboo && !bamboo {
        bamboo := true;
      } else if tile.suit == Dot && !circle {
        circle := true;
      } else if tile.suit == Character && !character {
        character := true;
      } else {
        if IsNumberSuit(tile.suit) {
          var k :| 0 <= k < i && redFives[k].suit == tile.suit;
          assert !RedFivesOk(redFives) by {
            assert redFives[k].suit == redFives[i].suit;
          }
        }
        return false;
      }
      i := i + 1;
    }
    return true;
  }

  method ValidateHandAndTiles(closedTiles: seq<Tile>, openTiles: seq<seq<Tile>>, doraIndicators: seq<Tile>)
    returns (error: Option<HandError>)
    ensures error == ValidationError(closedTiles, openTiles, doraIndicators)
  {
    if exists k :: 0 <= k < |closedTiles| && closedTiles[k].rank == Ranks.Back {
      return Some(BackTileInClosed);
    }
    var nonOpenTiles := closedTiles + doraIndicators;
    var handCount := 14;
    var i := 0;
    while i < |openTiles|
      invariant 0 <= i <= |openTiles|
      invariant handCount == 14 - 3 * i
      invariant OpenGroupsError(closedTiles, openTiles, doraIndicators, i) == OpenGroupsError(closedTiles, openTiles, doraIndicators, 0)
    {
      var group := openTiles[i];
      if !IsMeld(group) {
        return Some(OpenGroupNotMeld);
      }
      if |group| == 4 {
        if AnyGroupSoftEqual(openTiles[i + 1..], group[0]) || AnyGroupSoftEqual(openTiles[..i], group[0]) {
          return Some(KanTileInOtherOpenGroup);
        }
        if AnySoftEqual(closedTiles, group[0]) {
          return Some(KanTileInClosed);
        }
        if AnySoftEqual(doraIndicators, group[0]) {
          return Some(KanTileInDora);
        }
      }
      handCount := handCount - 3;
      i := i + 1;
    }
    var allRevealedTiles := nonOpenTiles + Flatten(openTiles);
    var quintuplet := HasQuintuplet(allRevealedTiles);
    if quintuplet {
      return Some(FiveCopies);
    }
    handCount := handCount - |closedTiles|;
    if handCount < 0 {
      return Some(TooManyTiles);
    } else if handCount > 0 {
      return Some(TooFewTiles);
    }
    var ok := CheckRedFives(RedTiles(allRevealedTiles));
    if !ok {
      return Some(RedFivesOfOneSuit);
    }
    return None;
  }

  /**
   * A hand that passes validation has fourteen tiles with every open group
   * (a kan included) counted as three, no face-down closed tile, only melds
   * in the open groups, no tile identity showing five times, and at most
   * one red five of each suit.
   */
  lemma ValidatedHandShape(closed: seq<Tile>, open: seq<seq<Tile>>, dora: seq<Tile>)
    requires ValidationError(closed, open, dora).None?
    ensures |closed| + 3 * |open| == 14
    ensures forall k :: 0 <= k < |closed| ==> closed[k].rank != Ranks.Back
    ensures forall x :: 0 <= x < |open| ==> IsMeld(open[x])
    ensures !HasFiveCopies(closed + dora + Flatten(open))
    ensures RedFivesOk(RedTiles(closed + dora + Flatten(open)))
  {
    OpenGroupsAreMelds(closed, open, dora, 0);
  }

  lemma {:induction false} OpenGroupsAreMelds(closed: seq<Tile>, open: seq<seq<Tile>>, dora: seq<Tile>, i: nat)
    requires OpenGroupsError(closed, open, dora, i).None?
    ensures forall x :: i <= x < |open| ==> IsMeld(open[x])
    decreases |open| - i
  {
    if i < |open| {
      OpenGroupsAreMelds(closed, open, dora, i + 1);
    }
  }

  /** A hand whose tile count is off is always rejected. */
  lemma WrongCountIsRejected(closed: seq<Tile>, open: seq<seq<Tile>>, dora: seq<Tile>)
    requires |closed| + 3 * |open| != 14
    ensures ValidationError(closed, open, dora).Some?
    ensures ValidationError(closed, open, dora) != Some(RedFivesOfOneSuit)
  {
    OpenGroupsErrorKind(closed, open, dora, 0);
  }

  lemma {:induction false} OpenGroupsErrorKind(closed: seq<Tile>, open: seq<seq<Tile>>, dora: seq<Tile>, i: nat)
    ensures OpenGroupsError(closed, open, dora, i) != Some(RedFivesOfOneSuit)
    decreases |open| - i
  {
    if i < |open| {
      OpenGroupsErrorKind(closed, open, dora, i + 1);
    }
  }

  /** Red fives pass only when there are at most three: one per number suit. */
  lemma AtMostThreeRedFives(reds: seq<Tile>)
    requires RedFivesOk(reds)
    ensures |reds| <= 3
  {
    if |reds| > 1 {
      var codes := seq(|reds|, k requires 0 <= k < |reds| => SuitCode(reds[k].suit));
      forall k, l | 0 <= k < l < |codes|
        ensures codes[k] != codes[l]
      {
        assert reds[k].suit != reds[l].suit;
      }
      DistinctBelowBound(codes, 3);
    }
  }

  function SuitCode(s: Suit): nat {
    match s
    case Bamboo => 0
    case Dot => 1
    case _ => 2
  }
}
