/**
 * The `Hand` class of scripts/Evaluator.ts and the second half of its
 * `scoreHand`: the argument checks, validation and grouping that come first,
 * then dora, the han sum, the fu count, the base winnings and who pays what.
 */
module Scoring {
  import opened Wrappers
  import opened Tiles
  import opened Sequences
  import opened Catalog
  import opened Validation
  import opened Wins
  import Ranks
  import HandGrouper

  /** The `payOrder` sentence as data: who pays how much. */
  datatype Payment =
    | NoPay
    | DealerTsumo(each: int, total: int)
    | NonDealerTsumo(dealerPays: int, othersPay: int, total: int)
    | Ron(amount: int)

  /** What `scoreHand` returns, without its free-text title. */
  datatype Score = Score(winnings: int, wins: seq<WinKey>, groups: seq<seq<Tile>>, payment: Payment)

  // ---------------------------------------------------------------------
  // Rounding
  // ---------------------------------------------------------------------

  /** `Math.ceil(n / 100) * 100`. */
  function Round100(n: nat): (r: nat)
    ensures r % 100 == 0 && n <= r < n + 100
  {
    (n + 99) / 100 * 100
  }

  /** `Math.ceil(n / 10) * 10`. */
  function RoundUpTen(n: nat): (r: nat)
    ensures r % 10 == 0 && n <= r < n + 10
  {
    (n + 9) / 10 * 10
  }

  /** `Math.pow(2, n)`. */
  function Pow2(n: nat): (r: nat)
    ensures r >= 1
  {
    if n == 0 then 1 else 2 * Pow2(n - 1)
  }

  // ---------------------------------------------------------------------
  // Yaakuman tiers and han
  // ---------------------------------------------------------------------

  /** `wins.findIndex(w => w.yaakuman == tier) != -1`. */
  predicate HasWinOfTier(wins: seq<WinKey>, tier: Yaakuman) {
    exists x :: 0 <= x < |wins| && Tier(wins[x]) == Some(tier)
  }

  /** The han a win counts for, as the `reduce` reads it: a missing or zero han is falsy. */
  function HanOf(k: WinKey, closed: bool): Option<nat> {
    var h := if closed then ClosedHan(k) else OpenHan(k);
    if h.Some? && h.value != 0 then h else None
  }

  /** The `reduce` summing han, throwing at the first win without one. */
  function HanSum(wins: seq<WinKey>, closed: bool): Result<nat, ScoreError> {
    if wins == [] then Success(0)
    else match HanSum(wins[..|wins| - 1], closed)
      case Failure(e) => Failure(e)
      case Success(sum) =>
        match HanOf(wins[|wins| - 1], closed)
        case None => Failure(MissingHan)
        case Some(h) => Success(sum + h)
  }

  method SumHan(wins: seq<WinKey>, closed: bool) returns (r: Result<nat, ScoreError>)
    ensures r == HanSum(wins, closed)
  {
    var sum := 0;
    var i := 0;
    while i < |wins|
      invariant 0 <= i <= |wins|
      invariant HanSum(wins[..i], closed) == Success(sum)
    {
      assert wins[..i + 1][..i] == wins[..i];
      var h := HanOf(wins[i], closed);
      if h.None? {
        HanSumFailureSticks(wins, closed, i + 1);
        return Failure(MissingHan);
      }
      sum := sum + h.value;
      i := i + 1;
    }
    assert wins[..|wins|] == wins;
    return Success(sum);
  }

  /** Once the sum of a prefix has thrown, the whole sum throws the same error. */
  lemma {:induction false} HanSumFailureSticks(wins: seq<WinKey>, closed: bool, n: nat)
    requires n <= |wins| && HanSum(wins[..n], closed).Failure?
    ensures HanSum(wins, closed) == HanSum(wins[..n], closed)
    decreases |wins| - n
  {
    if n < |wins| {
      assert wins[..n + 1][..n] == wins[..n];
      HanSumFailureSticks(wins, closed, n + 1);
    } else {
      assert wins[..n] == wins;
    }
  }

  /**
   * Every win that has no yaakuman tier and suits the hand's closedness has
   * a han, so the sum never throws; it is at least one per win.
   */
  lemma {:induction false} HanSumSucceeds(wins: seq<WinKey>, closed: bool)
    requires AllFitHand(closed, wins)
    requires forall k :: k in wins ==> !HasTier(k)
    ensures HanSum(wins, closed).Success? && HanSum(wins, closed).value >= |wins|
    decreases |wins|
  {
    if wins != [] {
      var init, last := wins[..|wins| - 1], wins[|wins| - 1];
      assert forall k :: k in init ==> k in wins;
      HanSumSucceeds(init, closed);
      UntieredEntriesHaveHan(last);
      assert last in wins;
    }
  }

  /** The base winnings of the han-5-and-above `switch`. */
  function LimitBase(han: nat): (base: nat)
    requires han >= 5
    ensures 2000 <= base <= 8000
  {
    if han == 5 then 2000
    else if han <= 7 then 3000
    else if han <= 10 then 4000
    else if han <= 12 then 6000
    else 8000
  }

  /** More han never lowers the limit base. */
  lemma LimitBaseMonotone(a: nat, b: nat)
    requires 5 <= a <= b
    ensures LimitBase(a) <= LimitBase(b)
  {
  }

  // ---------------------------------------------------------------------
  // Fu
  // ---------------------------------------------------------------------

  /**
   * The open-group half of the closed test: its callback shadows `g`, so it
   * asks of each open group whether it soft-equals its own first tile and has
   * two backs, whatever the group being scored is.
   */
  predicate ClosedKanShowing(h: seq<Tile>) {
    |h| > 0 && AnySoftEqual(h, h[0]) && BackCount(h) == 2
  }

  predicate ClosedTest(g: seq<Tile>, closedTiles: seq<Tile>, openGroups: seq<seq<Tile>>)
    requires |g| > 0
  {
    AnySoftEqual(closedTiles, g[0]) || exists x :: 0 <= x < |openGroups| && ClosedKanShowing(openGroups[x])
  }

  /** The fu one group adds in the loop over all groups. */
  function GroupFu(g: seq<Tile>, closedTiles: seq<Tile>, openGroups: seq<seq<Tile>>): (fu: nat)
    ensures fu in {0, 2, 4, 8, 16, 32}
  {
    if !IsTriplet(g) && !IsKan(g) then 0
    else
      var points := if IsTriplet(g) then 2 else 8;
      var points := if Ranks.IsTerminal(g[0].rank) || Ranks.IsHonor(g[0].rank) then 2 * points else points;
      if ClosedTest(g, closedTiles, openGroups) then 2 * points else points
  }

  function GroupsFu(groups: seq<seq<Tile>>, closedTiles: seq<Tile>, openGroups: seq<seq<Tile>>): (fu: nat)
    ensures fu <= 32 * |groups|
  {
    if groups == [] then 0
    else GroupsFu(groups[..|groups| - 1], closedTiles, openGroups) + GroupFu(groups[|groups| - 1], closedTiles, openGroups)
  }

  method SumGroupsFu(groups: seq<seq<Tile>>, closedTiles: seq<Tile>, openGroups: seq<seq<Tile>>) returns (fu: nat)
    ensures fu == GroupsFu(groups, closedTiles, openGroups)
  {
    fu := 0;
    var i := 0;
    while i < |groups|
      invariant 0 <= i <= |groups|
      invariant fu == GroupsFu(groups[..i], closedTiles, openGroups)
    {
      assert groups[..i + 1][..i] == groups[..i];
      var g := groups[i];
      if IsTriplet(g) || IsKan(g) {
        var points := if IsTriplet(g) then 2 else 8;
        if Ranks.IsTerminal(g[0].rank) || Ranks.IsHonor(g[0].rank) {
          points := points * 2;
        }
        if ClosedTest(g, closedTiles, openGroups) {
          points := points * 2;
        }
        fu := fu + points;
      }
      i := i + 1;
    }
    assert groups[..|groups|] == groups;
  }

  /** `closed_groups.find(g => g.length == 2)`. */
  function FirstPair(groups: seq<seq<Tile>>, from: nat): (r: Option<seq<Tile>>)
    ensures r.Some? ==> |r.value| == 2 && r.value in groups
    ensures r.Some? ==>
      exists x :: from <= x < |groups| && r.value == groups[x] && (forall y :: from <= y < x ==> |groups[y]| != 2)
    ensures r.None? ==> forall x :: from <= x < |groups| ==> |groups[x]| != 2
    decreases |groups| - from
  {
    if from >= |groups| then None
    else if |groups[from]| == 2 then Some(groups[from])
    else FirstPair(groups, from + 1)
  }

  /**
   * One group of the single-wait loop: `Some` when the loop stops here. The
   * indices `windex + 1 % 3` and `windex - 1 % 3` are `windex + 1` and
   * `windex - 1`, so a winning tile last in a sequence, or first in one whose
   * second tile is not one rank below it, reads a missing element.
   */
  function WaitAt(g: seq<Tile>, w: Tile): Option<Result<bool, ScoreError>> {
    match FirstSoftEqual(g, w, 0)
    case None => None
    case Some(x) =>
      if !IsSequence(g) then Some(Success(true))
      else if x + 1 >= 3 then Some(Failure(SingleWaitReadsPastGroup))
      else if g[x + 1].rank + 1 == g[x].rank then None
      else if x == 0 then Some(Failure(SingleWaitReadsPastGroup))
      else if g[x - 1].rank - 1 != g[x].rank then Some(Success(true))
      else None
  }

  /** The single-wait loop over the groups from position `i`. */
  function WaitScan(groups: seq<seq<Tile>>, w: Tile, i: nat): Result<bool, ScoreError>
    decreases |groups| - i
  {
    if i >= |groups| then Success(false)
    else match WaitAt(groups[i], w)
      case Some(r) => r
      case None => WaitScan(groups, w, i + 1)
  }

  method ScanSingleWait(groups: seq<seq<Tile>>, winningTile: Tile) returns (r: Result<bool, ScoreError>)
    ensures r == WaitScan(groups, winningTile, 0)
  {
    var i := 0;
    while i < |groups|
      invariant 0 <= i <= |groups|
      invariant WaitScan(groups, winningTile, i) == WaitScan(groups, winningTile, 0)
    {
      var g := groups[i];
      var windex := FirstSoftEqual(g, winningTile, 0);
      if windex.Some? {
        var x := windex.value;
        if !IsSequence(g) {
          return Success(true);
        }
        if x + 1 >= 3 {
          return Failure(SingleWaitReadsPastGroup);
        }
        if g[x + 1].rank + 1 != g[x].rank {
          if x == 0 {
            return Failure(SingleWaitReadsPastGroup);
          }
          if g[x - 1].rank - 1 != g[x].rank {
            return Success(true);
          }
        }
      }
      i := i + 1;
    }
    return Success(false);
  }

  /** `wins.findIndex(w => w == WinCatalog.Pinfu)`. */
  function IndexOfWin(wins: seq<WinKey>, k: WinKey, from: nat): (r: Option<nat>)
    ensures r.Some? ==> from <= r.value < |wins| && wins[r.value] == k
    ensures r.Some? ==> forall y :: from <= y < r.value ==> wins[y] != k
    ensures r.None? ==> forall y :: from <= y < |wins| ==> wins[y] != k
    decreases |wins| - from
  {
    if from >= |wins| then None
    else if wins[from] == k then Some(from)
    else IndexOfWin(wins, k, from + 1)
  }

  /** The fu of the hand before it is rounded, given the pair and the single-wait verdict. */
  function RawFu(t: Table, wins: seq<WinKey>, pair: seq<Tile>, singleWait: bool): nat
    requires |pair| == 2
  {
    var a := t.args;
    var closed := HandClosed(t);
    var fu := 20
      + (if closed && !a.tsumo then 10 else 0)
      + (if a.tsumo && IndexOfWin(wins, Pinfu, 0) == Some(1) then 2 else 0)
      + GroupsFu(AllGroups(t), t.closedTiles, t.openGroups)
      + (if singleWait then 2 else 0)
      + (if Ranks.IsDragon(pair[0].rank) || pair[0].rank == a.playerWind || pair[0].rank == a.prevalentWind then 2 else 0);
    if fu == 20 && !closed then 22 else fu
  }

  /** The fu count: 25 for seven pairs, otherwise the rounded sum, or the error it throws. */
  function FuOf(t: Table, wins: seq<WinKey>): Result<nat, ScoreError> {
    if |t.closedGroups| == 7 then Success(25)
    else match FirstPair(t.closedGroups, 0)
      case None => Failure(NoPairInClosedGroups)
      case Some(pair) =>
        var singleWait := if SoftEquals(pair[0], t.args.winningTile) then Success(true) else WaitScan(AllGroups(t), t.args.winningTile, 0);
        match singleWait
        case Failure(e) => Failure(e)
        case Success(sw) => Success(RoundUpTen(RawFu(t, wins, pair, sw)))
  }

  /** The fu is 25 for seven pairs, and otherwise a multiple of ten of at least thirty for a closed ron. */
  lemma FuShape(t: Table, wins: seq<WinKey>)
    requires FuOf(t, wins).Success?
    ensures var fu := FuOf(t, wins).value;
      (|t.closedGroups| == 7 ==> fu == 25) &&
      (|t.closedGroups| != 7 ==> fu % 10 == 0 && fu >= 20) &&
      (|t.closedGroups| != 7 && HandClosed(t) && !t.args.tsumo ==> fu >= 30) &&
      (|t.closedGroups| != 7 && !HandClosed(t) ==> fu >= 30)
  {
  }

  // ---------------------------------------------------------------------
  // Base winnings and payments
  // ---------------------------------------------------------------------

  /** `baseWinnings` once the list is known to be non-empty (dora included). */
  function BaseOf(t: Table, wins: seq<WinKey>): Result<nat, ScoreError> {
    if HasWinOfTier(wins, Double) then Success(16000)
    else if HasWinOfTier(wins, Single) then Success(8000)
    else match HanSum(wins, HandClosed(t))
      case Failure(e) => Failure(e)
      case Success(han) =>
        if han >= 5 then Success(LimitBase(han))
        else match FuOf(t, wins)
          case Failure(e) => Failure(e)
          case Success(fu) => Success(FuBase(fu, han))
  }

  /** The base below five han: `fu * 2^(2 + han)`, capped at 2000. */
  function FuBase(fu: nat, han: nat): (base: nat)
    ensures base <= 2000
    ensures base == 2000 || base == fu * Pow2(2 + han)
  {
    var uncapped := fu * Pow2(2 + han);
    if uncapped > 2000 then 2000 else uncapped
  }

  /** The base tiers: a Double yaakuman pays 16000, a Single 8000, anything else at most 8000. */
  lemma BaseTiers(t: Table, wins: seq<WinKey>)
    requires BaseOf(t, wins).Success?
    ensures var base := BaseOf(t, wins).value;
      && (HasWinOfTier(wins, Double) <==> base == 16000)
      && (!HasWinOfTier(wins, Double) && HasWinOfTier(wins, Single) ==> base == 8000)
      && base <= 16000
      && (!HasWinOfTier(wins, Double) && !HasWinOfTier(wins, Single) && HanSum(wins, HandClosed(t)).value < 5 ==> base <= 2000)
  {
  }

  /** `payOrder`: the dealer is the player whose seat wind is the prevalent wind. */
  function PaymentOf(base: nat, tsumo: bool, dealer: bool): Payment {
    if tsumo then
      if dealer then DealerTsumo(Round100(base * 2), Round100(base * 2 * 3))
      else NonDealerTsumo(Round100(base * 2), Round100(base), Round100(base * 2 * 2))
    else if dealer then Ron(Round100(base * 6))
    else Ron(Round100(base * 4))
  }

  /** Rounding up to the hundred gives the least multiple of a hundred not below `n`. */
  lemma Round100Least(n: nat, m: nat)
    requires m % 100 == 0 && m >= n
    ensures Round100(n) <= m
  {
    var r := Round100(n);
    assert r == 100 * (r / 100) && m == 100 * (m / 100);
  }

  /**
   * Every payment covers its multiple of the base, and the total announced
   * for a tsumo never exceeds what the other three players pay.
   */
  lemma PaymentsCoverBase(base: nat, tsumo: bool, dealer: bool)
    ensures match PaymentOf(base, tsumo, dealer)
      case DealerTsumo(each, total) => each >= 2 * base && total >= 6 * base && total <= 3 * each
      case NonDealerTsumo(dealerPays, othersPay, total) =>
        dealerPays >= 2 * base && othersPay >= base && total >= 4 * base && total <= dealerPays + 2 * othersPay
      case Ron(amount) => amount >= (if dealer then 6 else 4) * base
      case NoPay => false
  {
    if tsumo && dealer {
      var each := Round100(base * 2);
      Round100Least(base * 2 * 3, 3 * each);
    } else if tsumo {
      var dealerPays, othersPay := Round100(base * 2), Round100(base);
      Round100Least(base * 2 * 2, dealerPays + 2 * othersPay);
    }
  }

  // ---------------------------------------------------------------------
  // scoreHand
  // ---------------------------------------------------------------------

  /** Everything after the closed groups are known: the wins, dora, base and payment. */
  function Evaluate(t: Table): Result<Score, ScoreError> {
    match WinsOf(t)
    case Failure(e) => Failure(e)
    case Success(ws) =>
      if ws == [] then Success(Score(0, [], AllGroups(t), NoPay))
      else
        var wins := ws + Repeat(DoraIndicator, DoraCount(t.args.doraIndicators, AllTiles(t)));
        match BaseOf(t, wins)
        case Failure(e) => Failure(e)
        case Success(base) =>
          Success(Score(base, wins, AllGroups(t), PaymentOf(base, t.args.tsumo, t.args.playerWind == t.args.prevalentWind)))
  }

  /** `scoreHand` as a value: the score, or the error it throws first. */
  function ScoreOf(openGroups: seq<seq<Tile>>, closedTiles: seq<Tile>, args: ScoreArgs): Result<Score, ScoreError> {
    if !IsClosedHand(openGroups) && args.riichi then Failure(RiichiOnOpenHand)
    else if args.doubleRiichi && !args.riichi then Failure(DoubleRiichiWithoutRiichi)
    else if args.ippatsu && !args.riichi then Failure(IppatsuWithoutRiichi)
    else if !Ranks.IsWind(args.prevalentWind) then Failure(PrevalentWindNotWind)
    else if !Ranks.IsWind(args.playerWind) then Failure(SeatWindNotWind)
    else
      var hand := closedTiles + [args.winningTile];
      match ValidationError(hand, openGroups, args.doraIndicators)
      case Some(e) => Failure(InvalidHand(e))
      case None =>
        match HandGrouper.ClosedGroups(hand)
        case Failure(e) => Failure(InvalidClosedHand(e))
        case Success(closedGroups) => Evaluate(Table(openGroups, closedTiles, closedGroups, args))
  }

  /** A hand: its open groups (open melds and closed kans) and its closed tiles. */
  class Hand {
    var openGroups: seq<seq<Tile>>
    var closedTiles: seq<Tile>

    constructor (openGroups: seq<seq<Tile>>, closedTiles: seq<Tile>)
      ensures this.openGroups == openGroups && this.closedTiles == closedTiles
    {
      this.openGroups := openGroups;
      this.closedTiles := closedTiles;
    }

    predicate IsClosed()
      reads this
    {
      IsClosedHand(openGroups)
    }

    method AddGroup(group: seq<Tile>)
      modifies this
      ensures openGroups == old(openGroups) + [group]
      ensures closedTiles == old(closedTiles)
    {
      openGroups := openGroups + [group];
    }

    method AddClosedTile(tile: Tile)
      modifies this
      ensures closedTiles == old(closedTiles) + [tile]
      ensures openGroups == old(openGroups)
    {
      closedTiles := closedTiles + [tile];
    }

    method ScoreHand(args: ScoreArgs) returns (r: Result<Score, ScoreError>)
      ensures r == ScoreOf(openGroups, closedTiles, args)
    {
      if !IsClosed() && args.riichi {
        return Failure(RiichiOnOpenHand);
      }
      if args.doubleRiichi && !args.riichi {
        return Failure(DoubleRiichiWithoutRiichi);
      }
      if args.ippatsu && !args.riichi {
        return Failure(IppatsuWithoutRiichi);
      }
      if !Ranks.IsWind(args.prevalentWind) {
        return Failure(PrevalentWindNotWind);
      }
      if !Ranks.IsWind(args.playerWind) {
        return Failure(SeatWindNotWind);
      }
      var hand := closedTiles + [args.winningTile];
      var invalid := ValidateHandAndTiles(hand, openGroups, args.doraIndicators);
      if invalid.Some? {
        return Failure(InvalidHand(invalid.value));
      }
      var grouped, _ := HandGrouper.CreateClosedGroups(hand);
      if grouped.Failure? {
        return Failure(InvalidClosedHand(grouped.error));
      }
      var t := Table(openGroups, closedTiles, grouped.value, args);
      r := Evaluation(t);
    }
  }

  method Evaluation(t: Table) returns (r: Result<Score, ScoreError>)
    ensures r == Evaluate(t)
  {
    var collected := CollectWins(t);
    if collected.Failure? {
      return Failure(collected.error);
    }
    var groups := AllGroups(t);
    if collected.value == [] {
      return Success(Score(0, [], groups, NoPay));
    }
    var wins := AddDora(collected.value, t.args.doraIndicators, AllTiles(t));
    var base := BaseWinnings(t, wins);
    if base.Failure? {
      return Failure(base.error);
    }
    var payment := PaymentOf(base.value, t.args.tsumo, t.args.playerWind == t.args.prevalentWind);
    return Success(Score(base.value, wins, groups, payment));
  }

  method BaseWinnings(t: Table, wins: seq<WinKey>) returns (r: Result<nat, ScoreError>)
    ensures r == BaseOf(t, wins)
  {
    if HasWinOfTier(wins, Double) {
      return Success(16000);
    }
    if HasWinOfTier(wins, Single) {
      return Success(8000);
    }
    var han := SumHan(wins, HandClosed(t));
    if han.Failure? {
      return Failure(han.error);
    }
    if han.value >= 5 {
      return Success(LimitBase(han.value));
    }
    var fu := CountFu(t, wins);
    if fu.Failure? {
      return Failure(fu.error);
    }
    var base := fu.value * Pow2(2 + han.value);
    if base > 2000 {
      base := 2000;
    }
    assert BaseOf(t, wins) == Success(base);
    return Success(base);
  }

  method CountFu(t: Table, wins: seq<WinKey>) returns (r: Result<nat, ScoreError>)
    ensures r == FuOf(t, wins)
  {
    if |t.closedGroups| == 7 {
      return Success(25);
    }
    var a := t.args;
    var closed := HandClosed(t);
    var fu := 20;
    if closed && !a.tsumo {
      fu := fu + 10;
    }
    if a.tsumo && IndexOfWin(wins, Pinfu, 0) == Some(1) {
      fu := fu + 2;
    }
    var groupsFu := SumGroupsFu(AllGroups(t), t.closedTiles, t.openGroups);
    fu := fu + groupsFu;
    var found := FirstPair(t.closedGroups, 0);
    if found.None? {
      return Failure(NoPairInClosedGroups);
    }
    var pair := found.value;
    var singleWait := SoftEquals(pair[0], a.winningTile);
    if !singleWait {
      var scanned := ScanSingleWait(AllGroups(t), a.winningTile);
      if scanned.Failure? {
        return Failure(scanned.error);
      }
      singleWait := scanned.value;
    }
    if singleWait {
      fu := fu + 2;
    }
    if Ranks.IsDragon(pair[0].rank) || pair[0].rank == a.playerWind || pair[0].rank == a.prevalentWind {
      fu := fu + 2;
    }
    if fu == 20 && !closed {
      fu := fu + 2;
    }
    assert fu == RawFu(t, wins, pair, singleWait);
    return Success(RoundUpTen(fu));
  }

  // ---------------------------------------------------------------------
  // Properties of scoreHand
  // ---------------------------------------------------------------------

  /**
   * The single-wait loop throws only on a sequence holding the winning tile
   * last, or first with the next tile not one rank below it.
   */
  lemma {:induction false} WaitScanThrows(groups: seq<seq<Tile>>, w: Tile, i: nat)
    requires WaitScan(groups, w, i).Failure?
    ensures WaitScan(groups, w, i).error == SingleWaitReadsPastGroup
    ensures exists x :: (i <= x < |groups| && IsSequence(groups[x]) &&
      (FirstSoftEqual(groups[x], w, 0) == Some(2) ||
       (FirstSoftEqual(groups[x], w, 0) == Some(0) && groups[x][1].rank + 1 != groups[x][0].rank)))
    decreases |groups| - i
  {
    if WaitAt(groups[i], w).None? {
      WaitScanThrows(groups, w, i + 1);
    } else {
      assert IsSequence(groups[i]);
    }
  }

  /** The fu count throws only for a missing pair or a single-wait read past a group. */
  lemma FuErrors(t: Table, wins: seq<WinKey>)
    requires FuOf(t, wins).Failure?
    ensures FuOf(t, wins).error == NoPairInClosedGroups || FuOf(t, wins).error == SingleWaitReadsPastGroup
    ensures FuOf(t, wins).error == NoPairInClosedGroups <==>
      |t.closedGroups| != 7 && forall x :: 0 <= x < |t.closedGroups| ==> |t.closedGroups[x]| != 2
  {
    var pair := FirstPair(t.closedGroups, 0);
    if pair.Some? && !SoftEquals(pair.value[0], t.args.winningTile) {
      WaitScanThrows(AllGroups(t), t.args.winningTile, 0);
    }
  }

  /**
   * A hand that scores passed every argument check: riichi only on a closed
   * hand, double riichi and ippatsu only with riichi, and both winds winds.
   */
  lemma ScoredArguments(openGroups: seq<seq<Tile>>, closedTiles: seq<Tile>, args: ScoreArgs)
    requires ScoreOf(openGroups, closedTiles, args).Success?
    ensures args.riichi ==> IsClosedHand(openGroups)
    ensures args.doubleRiichi ==> args.riichi
    ensures args.ippatsu ==> args.riichi
    ensures Ranks.IsWind(args.prevalentWind) && Ranks.IsWind(args.playerWind)
  {
  }

  /** The table a scored hand is evaluated on: its groups passed validation and grouping. */
  lemma ScoredTable(openGroups: seq<seq<Tile>>, closedTiles: seq<Tile>, args: ScoreArgs) returns (t: Table)
    requires ScoreOf(openGroups, closedTiles, args).Success?
    ensures t.openGroups == openGroups && t.closedTiles == closedTiles && t.args == args
    ensures ValidationError(closedTiles + [args.winningTile], openGroups, args.doraIndicators).None?
    ensures HandGrouper.ClosedGroups(closedTiles + [args.winningTile]) == Success(t.closedGroups)
    ensures ScoreOf(openGroups, closedTiles, args) == Evaluate(t)
  {
    t := Table(openGroups, closedTiles, HandGrouper.ClosedGroups(closedTiles + [args.winningTile]).value, args);
  }

  /** An evaluated table reports the open groups followed by the closed groups. */
  lemma EvaluatedGroups(t: Table)
    requires Evaluate(t).Success?
    ensures Evaluate(t).value.groups == t.openGroups + t.closedGroups
  {
  }

  /**
   * A scored hand has fourteen tiles counting the winning tile and three per
   * open group, and its groups are the open groups followed by a partition
   * of the closed tiles and the winning tile.
   */
  lemma ScoredHandShape(openGroups: seq<seq<Tile>>, closedTiles: seq<Tile>, args: ScoreArgs)
    requires ScoreOf(openGroups, closedTiles, args).Success?
    ensures |closedTiles| + 1 + 3 * |openGroups| == 14
    ensures var groups := ScoreOf(openGroups, closedTiles, args).value.groups;
      && |groups| >= |openGroups|
      && groups[..|openGroups|] == openGroups
      && multiset(Flatten(groups[|openGroups|..])) == multiset(closedTiles + [args.winningTile])
  {
    var hand := closedTiles + [args.winningTile];
    var t := ScoredTable(openGroups, closedTiles, args);
    ValidatedHandShape(hand, openGroups, args.doraIndicators);
    HandGrouper.ClosedGroupsPartition(hand);
    EvaluatedGroups(t);
    var groups := openGroups + t.closedGroups;
    assert groups[..|openGroups|] == openGroups;
    assert groups[|openGroups|..] == t.closedGroups;
  }

  /** Nothing is paid exactly when no win was found, and then the winnings are zero. */
  lemma NoWinNoPay(openGroups: seq<seq<Tile>>, closedTiles: seq<Tile>, args: ScoreArgs)
    requires ScoreOf(openGroups, closedTiles, args).Success?
    ensures var score := ScoreOf(openGroups, closedTiles, args).value;
      && (score.wins == [] <==> score.payment == NoPay)
      && (score.wins == [] ==> score.winnings == 0)
  {
    var t := ScoredTable(openGroups, closedTiles, args);
    EvaluatedPayment(t);
  }

  lemma EvaluatedPayment(t: Table)
    requires Evaluate(t).Success?
    ensures var score := Evaluate(t).value;
      && (score.wins == [] <==> score.payment == NoPay)
      && (score.wins == [] ==> score.winnings == 0)
  {
  }

  /** Seven pairs come only from a hand with no open group. */
  lemma SevenPairsAreClosed(openGroups: seq<seq<Tile>>, closedTiles: seq<Tile>, args: ScoreArgs)
    requires ValidationError(closedTiles + [args.winningTile], openGroups, args.doraIndicators).None?
    requires HandGrouper.ClosedGroups(closedTiles + [args.winningTile]).Success?
    ensures |HandGrouper.ClosedGroups(closedTiles + [args.winningTile]).value| == 7 ==> |openGroups| == 0
  {
    var hand := closedTiles + [args.winningTile];
    ValidatedHandShape(hand, openGroups, args.doraIndicators);
    HandGrouper.ClosedGroupsPartition(hand);
  }

  /** The errors the win list can throw. */
  lemma WinsErrors(t: Table)
    requires WinsOf(t).Failure?
    ensures WinsOf(t).error == PinfuReadsPastGroup || WinsOf(t).error == TooManyPureDoubles
  {
    if FiveClosedGroups(t) && PinfuFrom(t.closedGroups, t.args.winningTile, 0, true).Failure? {
      PinfuThrowsOnLateWinningTile(t.closedGroups, t.args.winningTile, 0, true);
    }
  }

  /**
   * The han `reduce` never throws: a win without a han for the hand's
   * closedness is either a yaakuman, which is scored before the sum, or
   * never pushed for such a hand.
   */
  lemma MissingHanNeverThrown(openGroups: seq<seq<Tile>>, closedTiles: seq<Tile>, args: ScoreArgs)
    ensures ScoreOf(openGroups, closedTiles, args) != Failure(MissingHan)
  {
    if !IsClosedHand(openGroups) && args.riichi {
    } else if args.doubleRiichi && !args.riichi {
    } else if args.ippatsu && !args.riichi {
    } else if !Ranks.IsWind(args.prevalentWind) || !Ranks.IsWind(args.playerWind) {
    } else {
      var hand := closedTiles + [args.winningTile];
      match ValidationError(hand, openGroups, args.doraIndicators)
      case Some(_) =>
      case None =>
        match HandGrouper.ClosedGroups(hand)
        case Failure(_) =>
        case Success(closedGroups) =>
          SevenPairsAreClosed(openGroups, closedTiles, args);
          EvaluateNeverMissesHan(Table(openGroups, closedTiles, closedGroups, args));
    }
  }

  lemma EvaluateNeverMissesHan(t: Table)
    requires t.args.riichi ==> HandClosed(t)
    requires t.args.ippatsu ==> t.args.riichi
    requires |t.closedGroups| == 7 ==> |t.openGroups| == 0
    ensures Evaluate(t) != Failure(MissingHan)
  {
    if WinsOf(t).Failure? {
      WinsErrors(t);
    } else if WinsOf(t).value != [] {
      WinsFitHand(t);
      BaseNeverMissesHan(t, WinsOf(t).value, DoraCount(t.args.doraIndicators, AllTiles(t)));
    }
  }

  lemma BaseNeverMissesHan(t: Table, ws: seq<WinKey>, dora: nat)
    requires AllFitHand(HandClosed(t), ws)
    ensures BaseOf(t, ws + Repeat(DoraIndicator, dora)) != Failure(MissingHan)
  {
    var closed := HandClosed(t);
    var wins := ws + Repeat(DoraIndicator, dora);
    if !HasWinOfTier(wins, Double) && !HasWinOfTier(wins, Single) {
      forall k | k in wins
        ensures FitsHand(closed, k) && !HasTier(k)
      {
        var x :| 0 <= x < |wins| && wins[x] == k;
        if x >= |ws| {
          assert k == DoraIndicator;
        }
      }
      HanSumSucceeds(wins, closed);
      if FuOf(t, wins).Failure? {
        FuErrors(t, wins);
      }
    }
  }
}
