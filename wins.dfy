/**
 * The first half of `Hand.scoreHand` in scripts/Evaluator.ts: the list of
 * wins it assembles from the closed groups, the open groups and the call's
 * arguments. Every rule is a function of a `Table` (the groups and the
 * arguments); the loops of the source are methods proved equal to them.
 */
module Wins {
  import opened Wrappers
  import opened Tiles
  import opened Sequences
  import opened Catalog
  import opened Validation
  import Ranks
  import HandGrouper

  /** The arguments of `scoreHand`. */
  datatype ScoreArgs = ScoreArgs(
    winningTile: Tile,
    doraIndicators: seq<Tile>,
    tsumo: bool,
    prevalentWind: Ranks.Rank,
    playerWind: Ranks.Rank,
    riichi: bool,
    doubleRiichi: bool,
    ippatsu: bool,
    kanWin: bool,
    lastDrawWin: bool)

  /**
   * Why `scoreHand` throws: its argument checks, the two validation steps,
   * its own two errors, and the `TypeError`s of reading `.rank` or calling
   * `.softEquals` on a missing array element.
   */
  datatype ScoreError =
    | RiichiOnOpenHand
    | DoubleRiichiWithoutRiichi
    | IppatsuWithoutRiichi
    | PrevalentWindNotWind
    | SeatWindNotWind
    | InvalidHand(handError: HandError)
    | InvalidClosedHand(groupError: HandGrouper.GroupError)
    | PinfuReadsPastGroup
    | TooManyPureDoubles
    | MissingHan
    | NoPairInClosedGroups
    | SingleWaitReadsPastGroup

  /** What the win rules look at: the hand's groups, its closed tiles and the arguments. */
  datatype Table = Table(openGroups: seq<seq<Tile>>, closedTiles: seq<Tile>, closedGroups: seq<seq<Tile>>, args: ScoreArgs)

  /** `all_groups`. */
  function AllGroups(t: Table): seq<seq<Tile>> {
    t.openGroups + t.closedGroups
  }

  /** `all_tiles`. */
  function AllTiles(t: Table): seq<Tile> {
    Flatten(AllGroups(t))
  }

  predicate HandClosed(t: Table) {
    IsClosedHand(t.openGroups)
  }

  /** `g.findIndex(t => t.softEquals(w))`, searching from position `from`. */
  function FirstSoftEqual(g: seq<Tile>, w: Tile, from: nat): (r: Option<nat>)
    ensures r.Some? ==> from <= r.value < |g| && SoftEquals(g[r.value], w)
    ensures r.Some? ==> forall y :: from <= y < r.value ==> !SoftEquals(g[y], w)
    ensures r.None? ==> forall y :: from <= y < |g| ==> !SoftEquals(g[y], w)
    decreases |g| - from
  {
    if from >= |g| then None
    else if SoftEquals(g[from], w) then Some(from)
    else FirstSoftEqual(g, w, from + 1)
  }

  /** `all_groups.filter(g => g.length == 3 && Tile.isSequence(g))`. */
  function SequenceGroups(groups: seq<seq<Tile>>): (r: seq<seq<Tile>>)
    ensures |r| <= |groups|
    ensures forall x :: 0 <= x < |r| ==> IsSequence(r[x])
  {
    if groups == [] then []
    else SequenceGroups(groups[..|groups| - 1]) + (if IsSequence(groups[|groups| - 1]) then [groups[|groups| - 1]] else [])
  }

  /** `all_groups.filter(g => !Tile.isSequence(g))`. */
  function NonSequenceGroups(groups: seq<seq<Tile>>): (r: seq<seq<Tile>>)
    ensures |r| <= |groups|
    ensures forall x :: 0 <= x < |r| ==> !IsSequence(r[x]) && r[x] in groups
  {
    if groups == [] then []
    else NonSequenceGroups(groups[..|groups| - 1]) + (if !IsSequence(groups[|groups| - 1]) then [groups[|groups| - 1]] else [])
  }

  /** `all_groups.filter(g => g.length == 4)`. */
  function KanCount(groups: seq<seq<Tile>>): (n: nat)
    ensures n <= |groups|
  {
    if groups == [] then 0
    else KanCount(groups[..|groups| - 1]) + (if |groups[|groups| - 1]| == 4 then 1 else 0)
  }

  // ---------------------------------------------------------------------
  // Riichi, tsumo, last draw, kan, seven pairs, thirteen orphans
  // ---------------------------------------------------------------------

  /** The wins pushed before the Pinfu check. */
  function OpeningWins(t: Table): seq<WinKey> {
    var a := t.args;
    (if a.riichi then [if a.doubleRiichi then DoubleRiichi else Riichi] else [])
    + (if a.ippatsu then [Ippatsu] else [])
    + (if a.tsumo && HandClosed(t) then [MenzenchinTsumo] else [])
    + (if a.lastDrawWin then [if a.tsumo then UnderTheSea else UnderTheRiver] else [])
    + (if a.kanWin then [if a.tsumo then RinshanKaihou else RobbingAKan] else [])
    + (if |t.closedGroups| == 7 then [SevenPairs] else [])
    + (if |t.closedGroups| == 13 then [ThirteenOrphans] else [])
  }

  // ---------------------------------------------------------------------
  // Pinfu
  // ---------------------------------------------------------------------

  /**
   * The wait test for a sequence holding the winning tile at position `x`.
   * `winIndex + 1 % 3` is `winIndex + 1`, so positions past the group are
   * read and `.rank` of a missing element throws.
   */
  function PinfuWait(meld: seq<Tile>, x: nat): Result<bool, ScoreError>
    requires |meld| == 3 && x < 3
  {
    if x + 1 >= 3 then Failure(PinfuReadsPastGroup)
    else
      var b := meld[x + 1].rank;
      if !(b > Ranks.One && b < Ranks.Nine) then Success(false)
      else if x + 2 >= 3 then Failure(PinfuReadsPastGroup)
      else
        var c := meld[x + 2].rank;
        Success(c > Ranks.One && c < Ranks.Nine && (Ranks.CyclicNext(b) == c || Ranks.CyclicNext(c) == b))
  }

  /** One call of the `reduce` callback of the Pinfu check. */
  function PinfuStep(isPinfu: bool, meld: seq<Tile>, w: Tile): Result<bool, ScoreError> {
    if !isPinfu then Success(false)
    else if |meld| != 3 then Success(true)
    else if !IsSequence(meld) then Success(false)
    else match FirstSoftEqual(meld, w, 0)
      case None => Success(true)
      case Some(x) => PinfuWait(meld, x)
  }

  /** The `reduce` of the Pinfu check over the closed groups from position `i`. */
  function PinfuFrom(melds: seq<seq<Tile>>, w: Tile, i: nat, isPinfu: bool): Result<bool, ScoreError>
    decreases |melds| - i
  {
    if i >= |melds| then Success(isPinfu)
    else match PinfuStep(isPinfu, melds[i], w)
      case Failure(e) => Failure(e)
      case Success(b) => PinfuFrom(melds, w, i + 1, b)
  }

  method CheckPinfu(closedGroups: seq<seq<Tile>>, winningTile: Tile) returns (r: Result<bool, ScoreError>)
    ensures r == PinfuFrom(closedGroups, winningTile, 0, true)
  {
    var isPinfu := true;
    var i := 0;
    while i < |closedGroups|
      invariant 0 <= i <= |closedGroups|
      invariant PinfuFrom(closedGroups, winningTile, i, isPinfu) == PinfuFrom(closedGroups, winningTile, 0, true)
    {
      var meld := closedGroups[i];
      if isPinfu && |meld| == 3 && IsSequence(meld) {
        var winIndex := FirstSoftEqual(meld, winningTile, 0);
        if winIndex.Some? {
          var x := winIndex.value;
          if x + 1 >= 3 {
            return Failure(PinfuReadsPastGroup);
          }
          var b := meld[x + 1].rank;
          if b > Ranks.One && b < Ranks.Nine {
            if x + 2 >= 3 {
              return Failure(PinfuReadsPastGroup);
            }
            var c := meld[x + 2].rank;
            isPinfu := c > Ranks.One && c < Ranks.Nine && (Ranks.CyclicNext(b) == c || Ranks.CyclicNext(c) == b);
          } else {
            isPinfu := false;
          }
        }
      } else if isPinfu && |meld| == 3 {
        isPinfu := false;
      }
      i := i + 1;
    }
    return Success(isPinfu);
  }

  // ---------------------------------------------------------------------
  // Pure double sequence
  // ---------------------------------------------------------------------

  /** `a.every(t => b.findIndex(t2 => t2.softEquals(t)) != -1)`. */
  predicate Covers(a: seq<Tile>, b: seq<Tile>) {
    forall x :: 0 <= x < |a| ==> AnySoftEqual(b, a[x])
  }

  /** The pairs the nested loop counts, from `(i, j)` on in the loops' order. */
  function CoverCount(seqs: seq<seq<Tile>>, i: nat, j: nat): nat
    decreases |seqs| - i, |seqs| - j
  {
    if i + 1 >= |seqs| then 0
    else if j >= |seqs| then CoverCount(seqs, i + 1, i + 2)
    else (if Covers(seqs[i], seqs[j]) then 1 else 0) + CoverCount(seqs, i, j + 1)
  }

  method CountPureDoubles(sequences: seq<seq<Tile>>) returns (count: nat)
    ensures count == CoverCount(sequences, 0, 1)
  {
    count := 0;
    var i := 0;
    while i + 1 < |sequences|
      invariant count + CoverCount(sequences, i, i + 1) == CoverCount(sequences, 0, 1)
    {
      var j := i + 1;
      while j < |sequences|
        invariant i + 1 <= j <= |sequences|
        invariant count + CoverCount(sequences, i, j) == CoverCount(sequences, 0, 1)
      {
        if Covers(sequences[i], sequences[j]) {
          count := count + 1;
        }
        j := j + 1;
      }
      i := i + 1;
    }
  }

  function PureDoubleWins(count: nat): seq<WinKey> {
    if count == 1 then [PureDoubleSequence]
    else if count == 2 then [TwicePureDoubleSequence]
    else []
  }

  // ---------------------------------------------------------------------
  // Yakuhai
  // ---------------------------------------------------------------------

  /** `all_groups.filter(g => g.length >= 3 && g[0].suit == Suit.Honor)`. */
  function HonorGroups(groups: seq<seq<Tile>>): (r: seq<seq<Tile>>)
    ensures |r| <= |groups|
    ensures forall x :: 0 <= x < |r| ==> |r[x]| >= 3 && r[x][0].suit == Honor
  {
    if groups == [] then []
    else
      var g := groups[|groups| - 1];
      HonorGroups(groups[..|groups| - 1]) + (if |g| >= 3 && g[0].suit == Honor then [g] else [])
  }

  /** The wins the `reduce` callback pushes for one honor group. */
  function HonorGroupWins(g: seq<Tile>, prevalentWind: int, playerWind: int): seq<WinKey>
    requires |g| > 0
  {
    if Ranks.IsDragon(g[0].rank) then [YakuhaiDragons]
    else if g[0].rank == prevalentWind then [PrevalentWind]
    else if g[0].rank == playerWind then [SeatWind]
    else []
  }

  function HonorWins(hs: seq<seq<Tile>>, prevalentWind: int, playerWind: int): seq<WinKey>
    requires forall x :: 0 <= x < |hs| ==> |hs[x]| > 0
  {
    if hs == [] then []
    else HonorWins(hs[..|hs| - 1], prevalentWind, playerWind) + HonorGroupWins(hs[|hs| - 1], prevalentWind, playerWind)
  }

  /** The `acc[0]` counter: groups headed by a dragon. */
  function DragonGroups(hs: seq<seq<Tile>>): (n: nat)
    requires forall x :: 0 <= x < |hs| ==> |hs[x]| > 0
    ensures n <= |hs|
  {
    if hs == [] then 0
    else DragonGroups(hs[..|hs| - 1]) + (if Ranks.IsDragon(hs[|hs| - 1][0].rank) then 1 else 0)
  }

  /** The `acc[1]` counter: every other honor group. */
  function WindGroups(hs: seq<seq<Tile>>): (n: nat)
    requires forall x :: 0 <= x < |hs| ==> |hs[x]| > 0
    ensures n <= |hs|
  {
    if hs == [] then 0
    else WindGroups(hs[..|hs| - 1]) + (if Ranks.IsDragon(hs[|hs| - 1][0].rank) then 0 else 1)
  }

  method ScanHonorGroups(hs: seq<seq<Tile>>, prevalentWind: int, playerWind: int)
    returns (wins: seq<WinKey>, dragons: nat, winds: nat)
    requires forall x :: 0 <= x < |hs| ==> |hs[x]| > 0
    ensures wins == HonorWins(hs, prevalentWind, playerWind)
    ensures dragons == DragonGroups(hs) && winds == WindGroups(hs)
  {
    wins, dragons, winds := [], 0, 0;
    var i := 0;
    while i < |hs|
      invariant 0 <= i <= |hs|
      invariant wins == HonorWins(hs[..i], prevalentWind, playerWind)
      invariant dragons == DragonGroups(hs[..i]) && winds == WindGroups(hs[..i])
    {
      assert hs[..i + 1][..i] == hs[..i];
      var g := hs[i];
      if Ranks.IsDragon(g[0].rank) {
        wins := wins + [YakuhaiDragons];
        dragons := dragons + 1;
      } else {
        if g[0].rank == prevalentWind {
          wins := wins + [PrevalentWind];
        } else if g[0].rank == playerWind {
          wins := wins + [SeatWind];
        }
        winds := winds + 1;
      }
      i := i + 1;
    }
    assert hs[..|hs|] == hs;
  }

  function YakuhaiWins(t: Table): seq<WinKey> {
    if |AllGroups(t)| != 5 then []
    else
      var hs := HonorGroups(AllGroups(t));
      var dragons, winds := DragonGroups(hs), WindGroups(hs);
      HonorWins(hs, t.args.prevalentWind, t.args.playerWind)
      + (if dragons == 2 then [LittleThreeDragons] else if dragons == 3 then [BigThreeDragons] else [])
      + (if winds == 3 then [LittleFourWinds] else if winds == 34 then [BigFourWinds] else [])
  }

  // ---------------------------------------------------------------------
  // The two triple loops: Mixed Triple Sequence / Pure Straight, Triple Triplets
  // ---------------------------------------------------------------------

  /** `g.reduce((min, t) => t.rank < min ? t.rank : min, start)`. */
  function LowestRank(g: seq<Tile>, start: int): (m: int)
    ensures m <= start
  {
    if g == [] then start
    else
      var m := LowestRank(g[..|g| - 1], start);
      if g[|g| - 1].rank < m then g[|g| - 1].rank else m
  }

  /** `groups.map(g => LowestRank(g, start))`. */
  function LowestRanks(groups: seq<seq<Tile>>, start: int): (r: seq<int>)
    ensures |r| == |groups|
    ensures forall x :: 0 <= x < |r| ==> r[x] == LowestRank(groups[x], start)
  {
    seq(|groups|, x requires 0 <= x < |groups| => LowestRank(groups[x], start))
  }

  /** Which triple loop: the sequences one (with each sequence's suit) or the triplets one. */
  datatype TripleRule = RunsRule(suits: seq<Suit>) | TripletsRule

  predicate RuleFits(rule: TripleRule, lowest: seq<int>) {
    rule.RunsRule? ==> |rule.suits| == |lowest|
  }

  /** The `if` tests of the innermost loop body, and the win each one pushes. */
  function TripleHit(rule: TripleRule, lowest: seq<int>, i: nat, j: nat, k: nat): Option<WinKey>
    requires i < j < k < |lowest| && RuleFits(rule, lowest)
  {
    var a, b, c := lowest[i], lowest[j], lowest[k];
    match rule
    case RunsRule(suits) =>
      if a == b && b == c then Some(MixedTripleSequence)
      else if suits[i] == suits[j] && suits[j] == suits[k] &&
        ((a == Ranks.One && b == Ranks.Four && c == Ranks.Seven) ||
         (a == Ranks.Four && b == Ranks.Seven && c == Ranks.One) ||
         (a == Ranks.Seven && b == Ranks.One && c == Ranks.Four))
      then Some(PureStraight)
      else None
    case TripletsRule =>
      if (a + 1 == b && b + 1 == c) || (b + 1 == c && a + 1 == c) || (a + 1 == c && b + 1 == c) then Some(TripleTriplets)
      else None
  }

  /**
   * The three nested loops from `(i, j, k)` on: a hit pushes its win and
   * `break`s out of the `k` loop only, so every `(i, j)` can push once.
   */
  function TripleScan(rule: TripleRule, lowest: seq<int>, i: nat, j: nat, k: nat): seq<WinKey>
    requires i < j < k && RuleFits(rule, lowest)
    decreases |lowest| - i, |lowest| - j, |lowest| - k
  {
    if i + 2 >= |lowest| then []
    else if j + 1 >= |lowest| then TripleScan(rule, lowest, i + 1, i + 2, i + 3)
    else if k >= |lowest| then TripleScan(rule, lowest, i, j + 1, j + 2)
    else match TripleHit(rule, lowest, i, j, k)
      case Some(w) => [w] + TripleScan(rule, lowest, i, j + 1, j + 2)
      case None => TripleScan(rule, lowest, i, j, k + 1)
  }

  method ScanTriples(rule: TripleRule, lowest: seq<int>) returns (wins: seq<WinKey>)
    requires RuleFits(rule, lowest)
    ensures wins == TripleScan(rule, lowest, 0, 1, 2)
  {
    wins := [];
    var i := 0;
    while i + 2 < |lowest|
      invariant wins + TripleScan(rule, lowest, i, i + 1, i + 2) == TripleScan(rule, lowest, 0, 1, 2)
    {
      var j := i + 1;
      while j + 1 < |lowest|
        invariant i < j
        invariant wins + TripleScan(rule, lowest, i, j, j + 1) == TripleScan(rule, lowest, 0, 1, 2)
      {
        var k := j + 1;
        while k < |lowest|
          invariant j < k
          invariant wins + TripleScan(rule, lowest, i, j, k) == TripleScan(rule, lowest, 0, 1, 2)
        {
          var hit := TripleHit(rule, lowest, i, j, k);
          if hit.Some? {
            wins := wins + [hit.value];
            break;
          }
          k := k + 1;
        }
        j := j + 1;
      }
      i := i + 1;
    }
  }

  /** The suit of each sequence's first tile. */
  function FirstSuits(groups: seq<seq<Tile>>): (r: seq<Suit>)
    requires forall x :: 0 <= x < |groups| ==> |groups[x]| > 0
    ensures |r| == |groups|
  {
    seq(|groups|, x requires 0 <= x < |groups| => groups[x][0].suit)
  }

  function SequenceWins(t: Table): seq<WinKey> {
    var seqs := SequenceGroups(AllGroups(t));
    if |AllGroups(t)| == 5 && |seqs| >= 3 then
      TripleScan(RunsRule(FirstSuits(seqs)), LowestRanks(seqs, Ranks.Back), 0, 1, 2)
    else []
  }

  // ---------------------------------------------------------------------
  // Simples, honors, terminals, outside hands
  // ---------------------------------------------------------------------

  predicate IsTerminalOrHonor(t: Tile) {
    Ranks.IsTerminal(t.rank) || Ranks.IsHonor(t.rank)
  }

  function OutsideWins(t: Table): seq<WinKey> {
    var groups, tiles := AllGroups(t), AllTiles(t);
    var five := |groups| == 5;
    (if five && forall k :: 0 <= k < |tiles| ==> Ranks.IsSimple(tiles[k].rank) then [AllSimples] else [])
    + (if five && forall k :: 0 <= k < |tiles| ==> Ranks.IsHonor(tiles[k].rank) then [AllHonors] else [])
    + (if five && forall k :: 0 <= k < |tiles| ==> Ranks.IsTerminal(tiles[k].rank) then [AllTerminals] else [])
    + (if five && forall x :: 0 <= x < |groups| ==> exists k :: 0 <= k < |groups[x]| && IsTerminalOrHonor(groups[x][k])
       then [HalfOutsideHand] else [])
    + (if five && forall k :: 0 <= k < |tiles| ==> IsTerminalOrHonor(tiles[k]) then [FullOutsideHand] else [])
  }

  // ---------------------------------------------------------------------
  // All triplets, concealed triplets, kans, triple triplets
  // ---------------------------------------------------------------------

  predicate AvoidsTile(g: seq<Tile>, w: Tile) {
    forall k :: 0 <= k < |g| ==> !SoftEquals(g[k], w)
  }

  /** The closed groups counted as concealed triplets. */
  function ConcealedClosed(groups: seq<seq<Tile>>, tsumo: bool, w: Tile): (r: seq<seq<Tile>>)
    ensures |r| <= |groups|
    ensures forall x :: 0 <= x < |r| ==> r[x] in groups
  {
    if groups == [] then []
    else
      var g := groups[|groups| - 1];
      ConcealedClosed(groups[..|groups| - 1], tsumo, w)
      + (if !IsSequence(g) && |g| == 3 && (tsumo || AvoidsTile(g, w)) then [g] else [])
  }

  /** The open groups counted as concealed triplets: the closed kans. */
  function ConcealedKans(groups: seq<seq<Tile>>): (r: seq<seq<Tile>>)
    ensures |r| <= |groups|
    ensures forall x :: 0 <= x < |r| ==> IsConcealedKan(r[x])
  {
    if groups == [] then []
    else
      var g := groups[|groups| - 1];
      ConcealedKans(groups[..|groups| - 1]) + (if IsConcealedKan(g) then [g] else [])
  }

  function ConcealedWins(t: Table): seq<WinKey> {
    var w := t.args.winningTile;
    var tuplets := ConcealedClosed(t.closedGroups, t.args.tsumo, w) + ConcealedKans(t.openGroups);
    if |tuplets| == 4 then
      if forall x :: 0 <= x < 4 ==> AvoidsTile(tuplets[x], w) then [SingleWaitFourConcealedTriplets]
      else [FourConcealedTriplets]
    else if |tuplets| == 3 then [ThreeConcealedTriplets]
    else []
  }

  function TripletWins(t: Table): seq<WinKey> {
    var groups := AllGroups(t);
    var few := |SequenceGroups(groups)| <= 1;
    var kans := KanCount(groups);
    (if !HandClosed(t) && |NonSequenceGroups(groups)| == 4 then [AllTriplets] else [])
    + (if few then ConcealedWins(t) else [])
    + (if few && kans == 4 then [FourKans] else if few && kans == 3 then [ThreeKans] else [])
    + (if few then TripleScan(TripletsRule, LowestRanks(NonSequenceGroups(groups), Ranks.One), 0, 1, 2) else [])
  }

  // ---------------------------------------------------------------------
  // All green, flushes, nine gates
  // ---------------------------------------------------------------------

  /** `new Set(all_tiles.map(t => t.suit))`. */
  function SuitSet(tiles: seq<Tile>): set<Suit> {
    set k | 0 <= k < |tiles| :: tiles[k].suit
  }

  predicate HalfFlushSuits(suits: set<Suit>) {
    (|suits| == 2 && Honor in suits) || (|suits| == 3 && Honor in suits && Suit.Back in suits)
  }

  predicate FullFlushSuits(suits: set<Suit>) {
    (|suits| == 2 && Suit.Back in suits && Honor !in suits) || |suits| == 1
  }

  /** `nineGatesTrueHand`: the ranks 1112345678999. */
  const NineGatesRanks: seq<int> := [1, 1, 1, 2, 3, 4, 5, 6, 7, 8, 9, 9, 9]

  /** `xs.indexOf(v)`, as an option. */
  function IndexOf(xs: seq<int>, v: int, from: nat): (r: Option<nat>)
    ensures r.Some? ==> from <= r.value < |xs| && xs[r.value] == v
    ensures r.Some? ==> forall y :: from <= y < r.value ==> xs[y] != v
    ensures r.None? ==> forall y :: from <= y < |xs| ==> xs[y] != v
    decreases |xs| - from
  {
    if from >= |xs| then None
    else if xs[from] == v then Some(from)
    else IndexOf(xs, v, from + 1)
  }

  /** One call of the `forEach` callback: splice out the first copy of `v`, if any. */
  function RemoveRank(xs: seq<int>, v: int): seq<int> {
    match IndexOf(xs, v, 0)
    case Some(i) => RemoveAt(xs, i)
    case None => xs
  }

  /** `template` after the `forEach` has spliced out the first copy of each tile's rank. */
  function RanksLeft(template: seq<int>, tiles: seq<Tile>): seq<int> {
    if tiles == [] then template
    else RemoveRank(RanksLeft(template, tiles[..|tiles| - 1]), tiles[|tiles| - 1].rank)
  }

  /** The ranks of the true-nine-gates hand that the closed tiles did not use up. */
  function NineGatesLeft(tiles: seq<Tile>): seq<int> {
    RanksLeft(NineGatesRanks, tiles)
  }

  method NineGatesRemaining(closedTiles: seq<Tile>) returns (left: seq<int>)
    ensures left == NineGatesLeft(closedTiles)
  {
    left := NineGatesRanks;
    var i := 0;
    while i < |closedTiles|
      invariant 0 <= i <= |closedTiles|
      invariant left == NineGatesLeft(closedTiles[..i])
    {
      assert closedTiles[..i + 1][..i] == closedTiles[..i];
      ghost var next := RemoveRank(left, closedTiles[i].rank);
      assert NineGatesLeft(closedTiles[..i + 1]) == next;
      var index := IndexOf(left, closedTiles[i].rank, 0);
      if index.Some? {
        left := RemoveAt(left, index.value);
      }
      assert left == next;
      i := i + 1;
    }
    assert closedTiles[..|closedTiles|] == closedTiles;
  }

  function NineGatesWins(left: seq<int>, w: Tile): seq<WinKey> {
    if |left| == 0 then [TrueNineGates]
    else if |left| == 1 && left[0] == w.rank then [NineGates]
    else [FullFlush]
  }

  function ColourWins(t: Table): seq<WinKey> {
    var tiles := AllTiles(t);
    var five := |AllGroups(t)| == 5;
    var suits := SuitSet(tiles);
    (if forall k :: 0 <= k < |tiles| ==> IsGreen(tiles[k]) then [AllGreen] else [])
    + (if five && HalfFlushSuits(suits) then [HalfFlush] else [])
    + (if five && FullFlushSuits(suits) then
         if HandClosed(t) then NineGatesWins(NineGatesLeft(t.closedTiles), t.args.winningTile) else [FullFlush]
       else [])
  }

  // ---------------------------------------------------------------------
  // The whole list
  // ---------------------------------------------------------------------

  /** Whether the Pinfu and pure-double checks run: a closed hand of five closed groups. */
  predicate FiveClosedGroups(t: Table) {
    HandClosed(t) && |t.closedGroups| == 5
  }

  /** The `wins` list before dora, or the error thrown while it is built. */
  function WinsOf(t: Table): Result<seq<WinKey>, ScoreError> {
    var pinfu := if FiveClosedGroups(t) then PinfuFrom(t.closedGroups, t.args.winningTile, 0, true) else Success(false);
    match pinfu
    case Failure(e) => Failure(e)
    case Success(isPinfu) =>
      var doubles := if FiveClosedGroups(t) then CoverCount(SequenceGroups(AllGroups(t)), 0, 1) else 0;
      if doubles > 2 then Failure(TooManyPureDoubles)
      else Success(WinsList(t, isPinfu && FiveClosedGroups(t), doubles))
  }

  /** The segments of the list in the order `scoreHand` pushes them. */
  function WinsList(t: Table, isPinfu: bool, doubles: nat): seq<WinKey> {
    OpeningWins(t) + (if isPinfu then [Pinfu] else []) + PureDoubleWins(doubles)
    + YakuhaiWins(t) + SequenceWins(t) + OutsideWins(t) + TripletWins(t) + ColourWins(t)
  }

  method ScanYakuhai(t: Table) returns (r: seq<WinKey>)
    ensures r == YakuhaiWins(t)
  {
    r := [];
    var allGroups := AllGroups(t);
    if |allGroups| == 5 {
      var hs := HonorGroups(allGroups);
      var dragons, winds;
      r, dragons, winds := ScanHonorGroups(hs, t.args.prevalentWind, t.args.playerWind);
      if dragons == 2 {
        r := r + [LittleThreeDragons];
      } else if dragons == 3 {
        r := r + [BigThreeDragons];
      }
      if winds == 3 {
        r := r + [LittleFourWinds];
      } else if winds == 34 {
        r := r + [BigFourWinds];
      }
    }
  }

  method ScanSequences(t: Table) returns (r: seq<WinKey>)
    ensures r == SequenceWins(t)
  {
    r := [];
    var sequences := SequenceGroups(AllGroups(t));
    if |AllGroups(t)| == 5 && |sequences| >= 3 {
      r := ScanTriples(RunsRule(FirstSuits(sequences)), LowestRanks(sequences, Ranks.Back));
    }
  }

  method ScanTriplets(t: Table) returns (r: seq<WinKey>)
    ensures r == TripletWins(t)
  {
    var allGroups := AllGroups(t);
    var few := |SequenceGroups(allGroups)| <= 1;
    var kans := KanCount(allGroups);
    r := if !HandClosed(t) && |NonSequenceGroups(allGroups)| == 4 then [AllTriplets] else [];
    if few {
      r := r + ConcealedWins(t);
    }
    if few && kans == 4 {
      r := r + [FourKans];
    } else if few && kans == 3 {
      r := r + [ThreeKans];
    }
    if few {
      var triplets := ScanTriples(TripletsRule, LowestRanks(NonSequenceGroups(allGroups), Ranks.One));
      r := r + triplets;
    }
  }

  method ScanColours(t: Table) returns (r: seq<WinKey>)
    ensures r == ColourWins(t)
  {
    var tiles := AllTiles(t);
    var five := |AllGroups(t)| == 5;
    var suits := SuitSet(tiles);
    r := if forall k :: 0 <= k < |tiles| ==> IsGreen(tiles[k]) then [AllGreen] else [];
    if five && HalfFlushSuits(suits) {
      r := r + [HalfFlush];
    }
    if five && FullFlushSuits(suits) {
      if HandClosed(t) {
        var left := NineGatesRemaining(t.closedTiles);
        r := r + NineGatesWins(left, t.args.winningTile);
      } else {
        r := r + [FullFlush];
      }
    }
  }

  /** The collecting code of `scoreHand` up to the empty-list test. */
  method CollectWins(t: Table) returns (r: Result<seq<WinKey>, ScoreError>)
    ensures r == WinsOf(t)
  {
    var isPinfu := false;
    var doubles := 0;
    if FiveClosedGroups(t) {
      var pinfu := CheckPinfu(t.closedGroups, t.args.winningTile);
      if pinfu.Failure? {
        return Failure(pinfu.error);
      }
      isPinfu := pinfu.value;
      doubles := CountPureDoubles(SequenceGroups(AllGroups(t)));
      if doubles > 2 {
        return Failure(TooManyPureDoubles);
      }
    }
    var yakuhai := ScanYakuhai(t);
    var runs := ScanSequences(t);
    var triplets := ScanTriplets(t);
    var colours := ScanColours(t);
    r := Success(OpeningWins(t) + (if isPinfu then [Pinfu] else []) + PureDoubleWins(doubles)
      + yakuhai + runs + OutsideWins(t) + triplets + colours);
    assert isPinfu ==> FiveClosedGroups(t);
  }

  // ---------------------------------------------------------------------
  // Dora
  // ---------------------------------------------------------------------

  /** The tiles an indicator makes dora: its suit, at the rank after its own. */
  predicate IsDoraOf(t: Tile, indicator: Tile) {
    t.rank == Ranks.CyclicNext(indicator.rank) && t.suit == indicator.suit
  }

  /** The Dora Indicator wins one indicator adds: one per matching tile. */
  function DoraMatches(tiles: seq<Tile>, indicator: Tile): (n: nat)
    ensures n <= |tiles|
  {
    if tiles == [] then 0
    else DoraMatches(tiles[..|tiles| - 1], indicator) + (if IsDoraOf(tiles[|tiles| - 1], indicator) then 1 else 0)
  }

  /** The Dora Indicator wins of all the indicators together. */
  function DoraCount(indicators: seq<Tile>, tiles: seq<Tile>): nat {
    if indicators == [] then 0
    else DoraCount(indicators[..|indicators| - 1], tiles) + DoraMatches(tiles, indicators[|indicators| - 1])
  }

  /** `n` copies of `k`. */
  function Repeat(k: WinKey, n: nat): (r: seq<WinKey>)
    ensures |r| == n
    ensures forall x :: 0 <= x < n ==> r[x] == k
  {
    if n == 0 then [] else Repeat(k, n - 1) + [k]
  }

  /** The two nested `forEach` loops over the indicators and the hand's tiles. */
  method AddDora(wins: seq<WinKey>, doraIndicators: seq<Tile>, allTiles: seq<Tile>) returns (r: seq<WinKey>)
    ensures r == wins + Repeat(DoraIndicator, DoraCount(doraIndicators, allTiles))
  {
    r := wins;
    var i := 0;
    while i < |doraIndicators|
      invariant 0 <= i <= |doraIndicators|
      invariant r == wins + Repeat(DoraIndicator, DoraCount(doraIndicators[..i], allTiles))
    {
      assert doraIndicators[..i + 1][..i] == doraIndicators[..i];
      var dora := doraIndicators[i];
      var j := 0;
      while j < |allTiles|
        invariant 0 <= j <= |allTiles|
        invariant r == wins + Repeat(DoraIndicator, DoraCount(doraIndicators[..i], allTiles) + DoraMatches(allTiles[..j], dora))
      {
        assert allTiles[..j + 1][..j] == allTiles[..j];
        if IsDoraOf(allTiles[j], dora) {
          r := r + [DoraIndicator];
        }
        j := j + 1;
      }
      assert allTiles[..|allTiles|] == allTiles;
      i := i + 1;
    }
    assert doraIndicators[..|doraIndicators|] == doraIndicators;
  }

  /** Below the tile back an indicator counts the tiles of the next rank (Nine wrapping to One). */
  lemma {:induction false} DoraMatchesAreOccurrences(tiles: seq<Tile>, indicator: Tile)
    requires indicator.rank < Ranks.Back
    ensures DoraMatches(tiles, indicator) == Occurrences(tiles, indicator.suit, Ranks.CyclicNext(indicator.rank))
    ensures indicator.rank == Ranks.Nine ==> DoraMatches(tiles, indicator) == Occurrences(tiles, indicator.suit, Ranks.One)
    decreases |tiles|
  {
    if tiles != [] {
      DoraMatchesAreOccurrences(tiles[..|tiles| - 1], indicator);
    }
  }

  /** A tile back shown as an indicator makes nothing dora: no rank follows it. */
  lemma {:induction false} BackIndicatorCountsNothing(tiles: seq<Tile>, indicator: Tile)
    requires indicator.rank == Ranks.Back
    ensures DoraMatches(tiles, indicator) == 0
    decreases |tiles|
  {
    if tiles != [] {
      BackIndicatorCountsNothing(tiles[..|tiles| - 1], indicator);
    }
  }

  /** Every indicator adds at most one win per tile of the hand. */
  lemma {:induction false} DoraCountBound(indicators: seq<Tile>, tiles: seq<Tile>)
    ensures DoraCount(indicators, tiles) <= |indicators| * |tiles|
    decreases |indicators|
  {
    if indicators != [] {
      DoraCountBound(indicators[..|indicators| - 1], tiles);
      assert (|indicators| - 1) * |tiles| + |tiles| == |indicators| * |tiles|;
    }
  }

  // ---------------------------------------------------------------------
  // Properties of the rules
  // ---------------------------------------------------------------------

  /**
   * A hand scored Pinfu has a sequence in every three-tile closed group, and
   * every sequence holding the winning tile holds it first (the wait test
   * throws when it is second or third).
   */
  lemma {:induction false} PinfuMeansSequences(melds: seq<seq<Tile>>, w: Tile, i: nat, isPinfu: bool)
    requires PinfuFrom(melds, w, i, isPinfu) == Success(true)
    ensures isPinfu
    ensures forall x :: i <= x < |melds| && |melds[x]| == 3 ==> IsSequence(melds[x])
    ensures forall x :: i <= x < |melds| && IsSequence(melds[x]) && FirstSoftEqual(melds[x], w, 0).Some? ==>
      FirstSoftEqual(melds[x], w, 0) == Some(0)
    decreases |melds| - i
  {
    if i < |melds| {
      match PinfuStep(isPinfu, melds[i], w)
      case Success(b) =>
        PinfuMeansSequences(melds, w, i + 1, b);
      case Failure(_) =>
    }
  }

  /** The Pinfu check throws only on a sequence holding the winning tile second or third. */
  lemma {:induction false} PinfuThrowsOnLateWinningTile(melds: seq<seq<Tile>>, w: Tile, i: nat, isPinfu: bool)
    requires PinfuFrom(melds, w, i, isPinfu).Failure?
    ensures PinfuFrom(melds, w, i, isPinfu).error == PinfuReadsPastGroup
    ensures exists x :: (i <= x < |melds| && IsSequence(melds[x]) &&
      (FirstSoftEqual(melds[x], w, 0) == Some(1) || FirstSoftEqual(melds[x], w, 0) == Some(2)))
    decreases |melds| - i
  {
    match PinfuStep(isPinfu, melds[i], w)
    case Success(b) =>
      PinfuThrowsOnLateWinningTile(melds, w, i + 1, b);
    case Failure(_) =>
      assert IsSequence(melds[i]);
  }

  /** The pure-double counter is zero exactly when no later sequence covers an earlier one. */
  lemma {:induction false} CoverCountZero(seqs: seq<seq<Tile>>, i: nat, j: nat)
    requires i < j
    ensures CoverCount(seqs, i, j) == 0 <==>
      (forall b :: j <= b < |seqs| ==> !Covers(seqs[i], seqs[b])) &&
      (forall a, b :: i < a < b < |seqs| ==> !Covers(seqs[a], seqs[b]))
    decreases |seqs| - i, |seqs| - j
  {
    if i + 1 >= |seqs| {
    } else if j >= |seqs| {
      CoverCountZero(seqs, i + 1, i + 2);
    } else {
      CoverCountZero(seqs, i, j + 1);
    }
  }

  /** Every honor group is counted once, as a dragon group or as a wind group. */
  lemma {:induction false} HonorCountsPartition(hs: seq<seq<Tile>>)
    requires forall x :: 0 <= x < |hs| ==> |hs[x]| > 0
    ensures DragonGroups(hs) + WindGroups(hs) == |hs|
    decreases |hs|
  {
    if hs != [] {
      HonorCountsPartition(hs[..|hs| - 1]);
    }
  }

  /** The per-group honor wins are only the three yakuhai. */
  lemma {:induction false} HonorWinsKeys(hs: seq<seq<Tile>>, prevalentWind: int, playerWind: int)
    requires forall x :: 0 <= x < |hs| ==> |hs[x]| > 0
    ensures forall k :: k in HonorWins(hs, prevalentWind, playerWind) ==>
      k == YakuhaiDragons || k == PrevalentWind || k == SeatWind
    decreases |hs|
  {
    if hs != [] {
      HonorWinsKeys(hs[..|hs| - 1], prevalentWind, playerWind);
    }
  }

  /**
   * Big Four Winds is never awarded: it needs 34 wind groups, and a hand
   * scanned for yakuhai has five groups.
   */
  lemma BigFourWindsNeverAwarded(t: Table)
    ensures BigFourWinds !in YakuhaiWins(t)
  {
    if |AllGroups(t)| == 5 {
      var hs := HonorGroups(AllGroups(t));
      HonorWinsKeys(hs, t.args.prevalentWind, t.args.playerWind);
      assert WindGroups(hs) <= 5;
    }
  }

  /** A group whose ranks are all at least `start` has `start` as its reduced minimum. */
  lemma {:induction false} LowestRankFloor(g: seq<Tile>, start: int)
    requires forall k :: 0 <= k < |g| ==> g[k].rank >= start
    ensures LowestRank(g, start) == start
    decreases |g|
  {
    if g != [] {
      LowestRankFloor(g[..|g| - 1], start);
    }
  }

  /** With equal lowest ranks the triplet test never fires. */
  lemma {:induction false} EqualRanksNoTriplets(lowest: seq<int>, i: nat, j: nat, k: nat)
    requires i < j < k
    requires forall x :: 0 <= x < |lowest| ==> lowest[x] == Ranks.One
    ensures TripleScan(TripletsRule, lowest, i, j, k) == []
    decreases |lowest| - i, |lowest| - j, |lowest| - k
  {
    if i + 2 >= |lowest| {
    } else if j + 1 >= |lowest| {
      EqualRanksNoTriplets(lowest, i + 1, i + 2, i + 3);
    } else if k >= |lowest| {
      EqualRanksNoTriplets(lowest, i, j + 1, j + 2);
    } else {
      EqualRanksNoTriplets(lowest, i, j, k + 1);
    }
  }

  /**
   * Triple Triplets is never awarded to tiles with a rank: the lowest rank of
   * each group is reduced from One, so every group's value is One and no
   * three of them are consecutive.
   */
  lemma TripleTripletsNeverAwarded(groups: seq<seq<Tile>>)
    requires forall x, k :: 0 <= x < |groups| && 0 <= k < |groups[x]| ==> groups[x][k].rank != Ranks.NaN
    ensures TripleScan(TripletsRule, LowestRanks(NonSequenceGroups(groups), Ranks.One), 0, 1, 2) == []
  {
    var tuplets := NonSequenceGroups(groups);
    forall x | 0 <= x < |tuplets|
      ensures LowestRank(tuplets[x], Ranks.One) == Ranks.One
    {
      assert tuplets[x] in groups;
      LowestRankFloor(tuplets[x], Ranks.One);
    }
    EqualRanksNoTriplets(LowestRanks(tuplets, Ranks.One), 0, 1, 2);
  }

  /** The triple loops push only their own wins. */
  lemma {:induction false} TripleScanKeys(rule: TripleRule, lowest: seq<int>, i: nat, j: nat, k: nat)
    requires i < j < k && RuleFits(rule, lowest)
    ensures forall w :: w in TripleScan(rule, lowest, i, j, k) ==>
      if rule.RunsRule? then w == MixedTripleSequence || w == PureStraight else w == TripleTriplets
    decreases |lowest| - i, |lowest| - j, |lowest| - k
  {
    if i + 2 >= |lowest| {
    } else if j + 1 >= |lowest| {
      TripleScanKeys(rule, lowest, i + 1, i + 2, i + 3);
    } else if k >= |lowest| {
      TripleScanKeys(rule, lowest, i, j + 1, j + 2);
    } else {
      TripleScanKeys(rule, lowest, i, j + 1, j + 2);
      TripleScanKeys(rule, lowest, i, j, k + 1);
    }
  }

  /** The ranks of a list of tiles. */
  function RankSeq(tiles: seq<Tile>): (r: seq<int>)
    ensures |r| == |tiles|
  {
    if tiles == [] then [] else RankSeq(tiles[..|tiles| - 1]) + [tiles[|tiles| - 1].rank]
  }

  lemma RemoveRankMultiset(xs: seq<int>, v: int)
    ensures multiset(RemoveRank(xs, v)) == multiset(xs) - multiset{v}
  {
    match IndexOf(xs, v, 0)
    case Some(i) =>
    case None =>
      assert v !in multiset(xs);
  }

  /**
   * The splice loop leaves exactly the multiset difference between the
   * template and the ranks of the tiles.
   */
  lemma {:induction false} RanksLeftIsDifference(template: seq<int>, tiles: seq<Tile>)
    ensures multiset(RanksLeft(template, tiles)) == multiset(template) - multiset(RankSeq(tiles))
    decreases |tiles|
  {
    if tiles != [] {
      var init, v := tiles[..|tiles| - 1], tiles[|tiles| - 1].rank;
      RanksLeftIsDifference(template, init);
      RemoveRankMultiset(RanksLeft(template, init), v);
      assert multiset(RankSeq(tiles)) == multiset(RankSeq(init)) + multiset{v};
    }
  }

  /** Nothing of the template is left exactly when the tiles' ranks include all of it. */
  lemma NoneLeftIffAllRanks(template: seq<int>, tiles: seq<Tile>)
    ensures |RanksLeft(template, tiles)| == 0 <==> multiset(template) <= multiset(RankSeq(tiles))
  {
    RanksLeftIsDifference(template, tiles);
    var left := RanksLeft(template, tiles);
    assert |multiset(left)| == |left|;
    EmptyDifference(multiset(template), multiset(RankSeq(tiles)));
  }

  lemma EmptyDifference(need: multiset<int>, have: multiset<int>)
    ensures need - have == multiset{} <==> need <= have
  {
    if need <= have {
      assert forall v :: (need - have)[v] == 0;
    }
    if need - have == multiset{} {
      forall v
        ensures need[v] <= have[v]
      {
        assert (need - have)[v] == 0;
      }
    }
  }

  /** True Nine Gates is decided exactly when the closed ranks include all of 1112345678999. */
  lemma TrueNineGatesIffAllRanks(closedTiles: seq<Tile>)
    ensures |NineGatesLeft(closedTiles)| == 0 <==> multiset(NineGatesRanks) <= multiset(RankSeq(closedTiles))
  {
    NoneLeftIffAllRanks(NineGatesRanks, closedTiles);
  }

  /** A win that can be scored in a hand of the given closedness. */
  predicate FitsHand(closed: bool, k: WinKey) {
    (closed ==> k != AllTriplets) && (!closed ==> !ClosedOnly(k))
  }

  predicate AllFitHand(closed: bool, ws: seq<WinKey>) {
    forall k :: k in ws ==> FitsHand(closed, k)
  }

  lemma YakuhaiFitsHand(t: Table, closed: bool)
    ensures AllFitHand(closed, YakuhaiWins(t))
  {
    if |AllGroups(t)| == 5 {
      var hs := HonorGroups(AllGroups(t));
      var dragons, winds := DragonGroups(hs), WindGroups(hs);
      var a := HonorWins(hs, t.args.prevalentWind, t.args.playerWind);
      var b: seq<WinKey> := if dragons == 2 then [LittleThreeDragons] else if dragons == 3 then [BigThreeDragons] else [];
      var c: seq<WinKey> := if winds == 3 then [LittleFourWinds] else if winds == 34 then [BigFourWinds] else [];
      HonorWinsFit(closed, hs, t.args.prevalentWind, t.args.playerWind);
      assert AllFitHand(closed, b) && AllFitHand(closed, c);
      AllFitHandAppend(closed, a, b);
      AllFitHandAppend(closed, a + b, c);
    }
  }

  lemma HonorWinsFit(closed: bool, hs: seq<seq<Tile>>, prevalentWind: int, playerWind: int)
    requires forall x :: 0 <= x < |hs| ==> |hs[x]| > 0
    ensures AllFitHand(closed, HonorWins(hs, prevalentWind, playerWind))
  {
    HonorWinsKeys(hs, prevalentWind, playerWind);
  }

  lemma SequencesFitHand(t: Table, closed: bool)
    ensures AllFitHand(closed, SequenceWins(t))
  {
    var seqs := SequenceGroups(AllGroups(t));
    if |AllGroups(t)| == 5 && |seqs| >= 3 {
      TripleScanFits(closed, RunsRule(FirstSuits(seqs)), LowestRanks(seqs, Ranks.Back));
    }
  }

  lemma TripletsFitHand(t: Table)
    ensures AllFitHand(HandClosed(t), TripletWins(t))
  {
    var groups := AllGroups(t);
    var closed := HandClosed(t);
    var few := |SequenceGroups(groups)| <= 1;
    var kans := KanCount(groups);
    var a: seq<WinKey> := if !closed && |NonSequenceGroups(groups)| == 4 then [AllTriplets] else [];
    var b := if few then ConcealedWins(t) else [];
    var c: seq<WinKey> := if few && kans == 4 then [FourKans] else if few && kans == 3 then [ThreeKans] else [];
    var d := if few then TripleScan(TripletsRule, LowestRanks(NonSequenceGroups(groups), Ranks.One), 0, 1, 2) else [];
    assert AllFitHand(closed, a) && AllFitHand(closed, c);
    ConcealedFitsHand(t);
    TripleScanFits(closed, TripletsRule, LowestRanks(NonSequenceGroups(groups), Ranks.One));
    FourPartsFit(closed, a, b, c, d);
  }

  lemma TripleScanFits(closed: bool, rule: TripleRule, lowest: seq<int>)
    requires RuleFits(rule, lowest)
    ensures AllFitHand(closed, TripleScan(rule, lowest, 0, 1, 2))
  {
    TripleScanKeys(rule, lowest, 0, 1, 2);
  }

  lemma FourPartsFit(closed: bool, a: seq<WinKey>, b: seq<WinKey>, c: seq<WinKey>, d: seq<WinKey>)
    requires AllFitHand(closed, a) && AllFitHand(closed, b) && AllFitHand(closed, c) && AllFitHand(closed, d)
    ensures AllFitHand(closed, a + b + c + d)
  {
    AllFitHandAppend(closed, a, b);
    AllFitHandAppend(closed, a + b, c);
    AllFitHandAppend(closed, a + b + c, d);
  }

  lemma ConcealedFitsHand(t: Table)
    ensures AllFitHand(HandClosed(t), ConcealedWins(t))
  {
  }

  /**
   * Given the argument checks `scoreHand` makes first (riichi only on a
   * closed hand, ippatsu only with riichi) and that seven pairs need all
   * fourteen tiles closed, the list never holds All Triplets for a closed
   * hand, nor a closed-only win for an open one.
   */
  lemma OpeningFitsHand(t: Table)
    requires t.args.riichi ==> HandClosed(t)
    requires t.args.ippatsu ==> t.args.riichi
    requires |t.closedGroups| == 7 ==> |t.openGroups| == 0
    ensures AllFitHand(HandClosed(t), OpeningWins(t))
  {
  }

  lemma OutsideFitsHand(t: Table, closed: bool)
    ensures AllFitHand(closed, OutsideWins(t))
  {
  }

  lemma ColourFitsHand(t: Table, closed: bool)
    ensures AllFitHand(closed, ColourWins(t))
  {
  }

  lemma WinsFitHand(t: Table)
    requires WinsOf(t).Success?
    requires t.args.riichi ==> HandClosed(t)
    requires t.args.ippatsu ==> t.args.riichi
    requires |t.closedGroups| == 7 ==> |t.openGroups| == 0
    ensures AllFitHand(HandClosed(t), WinsOf(t).value)
  {
    var pinfu := if FiveClosedGroups(t) then PinfuFrom(t.closedGroups, t.args.winningTile, 0, true) else Success(false);
    var doubles := if FiveClosedGroups(t) then CoverCount(SequenceGroups(AllGroups(t)), 0, 1) else 0;
    assert WinsOf(t).value == WinsList(t, pinfu.value && FiveClosedGroups(t), doubles);
    ListFitsHand(t, pinfu.value && FiveClosedGroups(t), doubles);
  }

  lemma ListFitsHand(t: Table, isPinfu: bool, doubles: nat)
    requires isPinfu ==> FiveClosedGroups(t)
    requires t.args.riichi ==> HandClosed(t)
    requires t.args.ippatsu ==> t.args.riichi
    requires |t.closedGroups| == 7 ==> |t.openGroups| == 0
    ensures AllFitHand(HandClosed(t), WinsList(t, isPinfu, doubles))
  {
    var closed := HandClosed(t);
    var a := OpeningWins(t) + (if isPinfu then [Pinfu] else []) + PureDoubleWins(doubles);
    OpeningFitsHand(t);
    assert AllFitHand(closed, a);
    YakuhaiFitsHand(t, closed);
    AllFitHandAppend(closed, a, YakuhaiWins(t));
    a := a + YakuhaiWins(t);
    SequencesFitHand(t, closed);
    AllFitHandAppend(closed, a, SequenceWins(t));
    a := a + SequenceWins(t);
    OutsideFitsHand(t, closed);
    AllFitHandAppend(closed, a, OutsideWins(t));
    a := a + OutsideWins(t);
    TripletsFitHand(t);
    AllFitHandAppend(closed, a, TripletWins(t));
    a := a + TripletWins(t);
    ColourFitsHand(t, closed);
    AllFitHandAppend(closed, a, ColourWins(t));
  }

  lemma AllFitHandAppend(closed: bool, a: seq<WinKey>, b: seq<WinKey>)
    requires AllFitHand(closed, a) && AllFitHand(closed, b)
    ensures AllFitHand(closed, a + b)
  {
  }
}
