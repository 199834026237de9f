/**
 * The constant `WinCatalog` table of scripts/WinCatalog.ts: every scoring
 * category ("win") with its display name, description, han for an open and a
 * closed hand (null where the win cannot be scored in that state) and its
 * optional yaakuman tier.
 */
module Catalog {
  import opened Wrappers

  /** The `Yaakuman` enumeration; no catalog entry uses `None` (it is absent instead). */
  datatype Yaakuman = NoYaakuman | Single | Double

  /** A catalog entry; the free-text description is not modelled. */
  datatype Win = Win(name: string, openHan: Option<nat>, closedHan: Option<nat>, yaakuman: Option<Yaakuman>)

  /** One constructor per key of the catalog object, in its order. */
  datatype WinKey =
    | DoubleRiichi
    | Riichi
    | Ippatsu
    | MenzenchinTsumo
    | UnderTheSea
    | UnderTheRiver
    | RinshanKaihou
    | RobbingAKan
    | SevenPairs
    | ThirteenOrphans
    | Pinfu
    | PureDoubleSequence
    | TwicePureDoubleSequence
    | YakuhaiDragons
    | PrevalentWind
    | SeatWind
    | LittleThreeDragons
    | BigThreeDragons
    | LittleFourWinds
    | BigFourWinds
    | MixedTripleSequence
    | PureStraight
    | AllTerminals
    | AllHonors
    | AllSimples
    | FullOutsideHand
    | HalfOutsideHand
    | AllTriplets
    | ThreeConcealedTriplets
    | FourConcealedTriplets
    | SingleWaitFourConcealedTriplets
    | ThreeKans
    | FourKans
    | TripleTriplets
    | AllGreen
    | TrueNineGates
    | NineGates
    | FullFlush
    | HalfFlush
    | DoraIndicator
    | RedFive

  /** The catalog entry stored under each key, assembled from the columns below. */
  function Entry(k: WinKey): Win {
    Win(Name(k), OpenHan(k), ClosedHan(k), Tier(k))
  }

  /** The `name` column. */
  function Name(k: WinKey): string {
    match k
    case DoubleRiichi => "Double Riichi"
    case Riichi => "Riichi"
    case Ippatsu => "Ippatsu"
    case MenzenchinTsumo => "Menzenchin Tsumo"
    case UnderTheSea => "Under The Sea"
    case UnderTheRiver => "Under The River"
    case RinshanKaihou => "Rinshan Kaihou"
    case RobbingAKan => "Robbing A Kan"
    case SevenPairs => "Seven Pairs"
    case ThirteenOrphans => "Thirteen Orphans"
    case Pinfu => "Pinfu"
    case PureDoubleSequence => "Pure Double Sequence"
    case TwicePureDoubleSequence => "Twice Pure Double Sequence"
    case YakuhaiDragons => "Yakuhai Dragons"
    case PrevalentWind => "Prevalent Wind"
    case SeatWind => "Seat Wind"
    case LittleThreeDragons => "Little Three Dragons"
    case BigThreeDragons => "Big Three Dragons"
    case LittleFourWinds => "Little Four Winds"
    case BigFourWinds => "Big Four Winds"
    case MixedTripleSequence => "Mixed Triple Sequence"
    case PureStraight => "Pure Straight"
    case AllTerminals => "All Terminals"
    case AllHonors => "All Honors"
    case AllSimples => "All Simples"
    case FullOutsideHand => "Full Outside Hand"
    case HalfOutsideHand => "Half Outside Hand"
    case AllTriplets => "All Triplets"
    case ThreeConcealedTriplets => "Three Concealed Triplets"
    case FourConcealedTriplets => "Four Concealed Triplets"
    case SingleWaitFourConcealedTriplets => "Single Wait Four Concealed Triplets"
    case ThreeKans => "Three Kan"
    case FourKans => "Four Kan"
    case TripleTriplets => "Triple Triplets"
    case AllGreen => "All Green"
    case TrueNineGates => "True Nine Gates"
    case NineGates => "Nine Gates"
    case FullFlush => "Full Flush"
    case HalfFlush => "Half Flush"
    case DoraIndicator => "Dora Indicator"
    case RedFive => "Red Five"
  }

  /**
   * Each name back to its key, told apart by its length and then by its first
   * or third character.
   */
  function KeyOfName(name: string): Option<WinKey> {
    if |name| < 3 then None
    else if |name| == 5 then
        Some(Pinfu)
    else if |name| == 6 then
        Some(Riichi)
    else if |name| == 7 then
        Some(Ippatsu)
    else if |name| == 8 then
        if name[0] == 'F' then Some(FourKans)
        else if name[0] == 'R' then Some(RedFive)
        else None
    else if |name| == 9 then
        if name[0] == 'S' then Some(SeatWind)
        else if name[0] == 'T' then Some(ThreeKans)
        else if name[0] == 'A' then Some(AllGreen)
        else None
    else if |name| == 10 then
        if name[0] == 'A' then Some(AllHonors)
        else if name[0] == 'N' then Some(NineGates)
        else if name[0] == 'F' then Some(FullFlush)
        else if name[0] == 'H' then Some(HalfFlush)
        else None
    else if |name| == 11 then
        if name[0] == 'S' then Some(SevenPairs)
        else if name[0] == 'A' then Some(AllSimples)
        else None
    else if |name| == 12 then
        Some(AllTriplets)
    else if |name| == 13 then
        if name[0] == 'D' then Some(DoubleRiichi)
        else if name[0] == 'U' then Some(UnderTheSea)
        else if name[0] == 'R' then Some(RobbingAKan)
        else if name[0] == 'P' then Some(PureStraight)
        else if name[0] == 'A' then Some(AllTerminals)
        else None
    else if |name| == 14 then
        if name[0] == 'R' then Some(RinshanKaihou)
        else if name[0] == 'P' then Some(PrevalentWind)
        else if name[0] == 'B' then Some(BigFourWinds)
        else if name[0] == 'D' then Some(DoraIndicator)
        else None
    else if |name| == 15 then
        if name[2] == 'd' then Some(UnderTheRiver)
        else if name[2] == 'k' then Some(YakuhaiDragons)
        else if name[2] == 'i' then Some(TripleTriplets)
        else if name[2] == 'u' then Some(TrueNineGates)
        else None
    else if |name| == 16 then
        if name[0] == 'M' then Some(MenzenchinTsumo)
        else if name[0] == 'T' then Some(ThirteenOrphans)
        else None
    else if |name| == 17 then
        if name[0] == 'B' then Some(BigThreeDragons)
        else if name[0] == 'L' then Some(LittleFourWinds)
        else if name[0] == 'F' then Some(FullOutsideHand)
        else if name[0] == 'H' then Some(HalfOutsideHand)
        else None
    else if |name| == 20 then
        if name[0] == 'P' then Some(PureDoubleSequence)
        else if name[0] == 'L' then Some(LittleThreeDragons)
        else None
    else if |name| == 21 then
        Some(MixedTripleSequence)
    else if |name| == 23 then
        Some(FourConcealedTriplets)
    else if |name| == 24 then
        Some(ThreeConcealedTriplets)
    else if |name| == 26 then
        Some(TwicePureDoubleSequence)
    else if |name| == 35 then
        Some(SingleWaitFourConcealedTriplets)
    else None
  }

  /** `NameIdentifies`, six keys at a time. */
  lemma NameIdentifiesPart1(k: WinKey)
    requires k == DoubleRiichi || k == Riichi || k == Ippatsu || k == MenzenchinTsumo || k == UnderTheSea || k == UnderTheRiver
    ensures KeyOfName(Name(k)) == Some(k)
  {
  }

  lemma NameIdentifiesPart2(k: WinKey)
    requires k == RinshanKaihou || k == RobbingAKan || k == SevenPairs || k == ThirteenOrphans || k == Pinfu || k == PureDoubleSequence
    ensures KeyOfName(Name(k)) == Some(k)
  {
  }

  lemma NameIdentifiesPart3(k: WinKey)
    requires k == TwicePureDoubleSequence || k == YakuhaiDragons || k == PrevalentWind || k == SeatWind || k == LittleThreeDragons || k == BigThreeDragons
    ensures KeyOfName(Name(k)) == Some(k)
  {
  }

  lemma NameIdentifiesPart4(k: WinKey)
    requires k == LittleFourWinds || k == BigFourWinds || k == MixedTripleSequence || k == PureStraight || k == AllTerminals || k == AllHonors
    ensures KeyOfName(Name(k)) == Some(k)
  {
  }

  lemma NameIdentifiesPart5(k: WinKey)
    requires k == AllSimples || k == FullOutsideHand || k == HalfOutsideHand || k == AllTriplets || k == ThreeConcealedTriplets || k == FourConcealedTriplets
    ensures KeyOfName(Name(k)) == Some(k)
  {
  }

  lemma NameIdentifiesPart6(k: WinKey)
    requires k == SingleWaitFourConcealedTriplets || k == ThreeKans || k == FourKans || k == TripleTriplets || k == AllGreen || k == TrueNineGates
    ensures KeyOfName(Name(k)) == Some(k)
  {
  }

  lemma NameIdentifiesPart7(k: WinKey)
    requires k == NineGates || k == FullFlush || k == HalfFlush || k == DoraIndicator || k == RedFive
    ensures KeyOfName(Name(k)) == Some(k)
  {
  }

  /** Every entry's name leads back to its key. */
  lemma NameIdentifies(k: WinKey)
    ensures KeyOfName(Name(k)) == Some(k)
  {
    if k == DoubleRiichi || k == Riichi || k == Ippatsu || k == MenzenchinTsumo || k == UnderTheSea || k == UnderTheRiver {
      NameIdentifiesPart1(k);
    } else if k == RinshanKaihou || k == RobbingAKan || k == SevenPairs || k == ThirteenOrphans || k == Pinfu || k == PureDoubleSequence {
      NameIdentifiesPart2(k);
    } else if k == TwicePureDoubleSequence || k == YakuhaiDragons || k == PrevalentWind || k == SeatWind || k == LittleThreeDragons || k == BigThreeDragons {
      NameIdentifiesPart3(k);
    } else if k == LittleFourWinds || k == BigFourWinds || k == MixedTripleSequence || k == PureStraight || k == AllTerminals || k == AllHonors {
      NameIdentifiesPart4(k);
    } else if k == AllSimples || k == FullOutsideHand || k == HalfOutsideHand || k == AllTriplets || k == ThreeConcealedTriplets || k == FourConcealedTriplets {
      NameIdentifiesPart5(k);
    } else if k == SingleWaitFourConcealedTriplets || k == ThreeKans || k == FourKans || k == TripleTriplets || k == AllGreen || k == TrueNineGates {
      NameIdentifiesPart6(k);
    } else {
      NameIdentifiesPart7(k);
    }
  }

  /** No two entries share a name. */
  lemma NamesDistinct(a: WinKey, b: WinKey)
    ensures a != b ==> Name(a) != Name(b)
  {
    NameIdentifies(a);
    NameIdentifies(b);
  }

  /** The `open_han` column (`null` is `None`). */
  function OpenHan(k: WinKey): Option<nat> {
    match k
    case DoubleRiichi => None
    case Riichi => None
    case Ippatsu => None
    case MenzenchinTsumo => None
    case UnderTheSea => Some(1)
    case UnderTheRiver => Some(1)
    case RinshanKaihou => Some(1)
    case RobbingAKan => Some(1)
    case SevenPairs => None
    case ThirteenOrphans => None
    case Pinfu => None
    case PureDoubleSequence => Some(1)
    case TwicePureDoubleSequence => Some(3)
    case YakuhaiDragons => Some(1)
    case PrevalentWind => Some(1)
    case SeatWind => Some(1)
    case LittleThreeDragons => Some(2)
    case BigThreeDragons => Some(0)
    case LittleFourWinds => Some(0)
    case BigFourWinds => Some(0)
    case MixedTripleSequence => Some(1)
    case PureStraight => Some(1)
    case AllTerminals => Some(0)
    case AllHonors => Some(0)
    case AllSimples => Some(1)
    case FullOutsideHand => Some(3)
    case HalfOutsideHand => Some(1)
    case AllTriplets => Some(2)
    case ThreeConcealedTriplets => Some(2)
    case FourConcealedTriplets => None
    case SingleWaitFourConcealedTriplets => None
    case ThreeKans => Some(2)
    case FourKans => Some(0)
    case TripleTriplets => Some(2)
    case AllGreen => Some(0)
    case TrueNineGates => None
    case NineGates => None
    case FullFlush => Some(5)
    case HalfFlush => Some(2)
    case DoraIndicator => Some(1)
    case RedFive => Some(1)
  }

  /** The `closed_han` column (`null` is `None`). */
  function ClosedHan(k: WinKey): Option<nat> {
    match k
    case DoubleRiichi => Some(1)
    case Riichi => Some(1)
    case Ippatsu => Some(1)
    case MenzenchinTsumo => Some(1)
    case UnderTheSea => Some(1)
    case UnderTheRiver => Some(1)
    case RinshanKaihou => Some(1)
    case RobbingAKan => Some(1)
    case SevenPairs => Some(2)
    case ThirteenOrphans => Some(0)
    case Pinfu => Some(1)
    case PureDoubleSequence => Some(1)
    case TwicePureDoubleSequence => Some(3)
    case YakuhaiDragons => Some(1)
    case PrevalentWind => Some(1)
    case SeatWind => Some(1)
    case LittleThreeDragons => Some(2)
    case BigThreeDragons => Some(0)
    case LittleFourWinds => Some(0)
    case BigFourWinds => Some(0)
    case MixedTripleSequence => Some(2)
    case PureStraight => Some(2)
    case AllTerminals => Some(0)
    case AllHonors => Some(0)
    case AllSimples => Some(1)
    case FullOutsideHand => Some(2)
    case HalfOutsideHand => Some(2)
    case AllTriplets => None
    case ThreeConcealedTriplets => Some(2)
    case FourConcealedTriplets => Some(0)
    case SingleWaitFourConcealedTriplets => Some(0)
    case ThreeKans => Some(2)
    case FourKans => Some(0)
    case TripleTriplets => Some(2)
    case AllGreen => Some(0)
    case TrueNineGates => Some(0)
    case NineGates => Some(0)
    case FullFlush => Some(6)
    case HalfFlush => Some(3)
    case DoraIndicator => Some(1)
    case RedFive => Some(1)
  }

  /** The optional `yaakuman` field. */
  function Tier(k: WinKey): Option<Yaakuman> {
    match k
    case DoubleRiichi => None
    case Riichi => None
    case Ippatsu => None
    case MenzenchinTsumo => None
    case UnderTheSea => None
    case UnderTheRiver => None
    case RinshanKaihou => None
    case RobbingAKan => None
    case SevenPairs => None
    case ThirteenOrphans => Some(Single)
    case Pinfu => None
    case PureDoubleSequence => None
    case TwicePureDoubleSequence => None
    case YakuhaiDragons => None
    case PrevalentWind => None
    case SeatWind => None
    case LittleThreeDragons => None
    case BigThreeDragons => Some(Single)
    case LittleFourWinds => Some(Single)
    case BigFourWinds => Some(Double)
    case MixedTripleSequence => None
    case PureStraight => None
    case AllTerminals => Some(Single)
    case AllHonors => Some(Single)
    case AllSimples => None
    case FullOutsideHand => None
    case HalfOutsideHand => None
    case AllTriplets => None
    case ThreeConcealedTriplets => None
    case FourConcealedTriplets => Some(Single)
    case SingleWaitFourConcealedTriplets => Some(Double)
    case ThreeKans => None
    case FourKans => Some(Single)
    case TripleTriplets => None
    case AllGreen => Some(Single)
    case TrueNineGates => Some(Double)
    case NineGates => Some(Single)
    case FullFlush => None
    case HalfFlush => None
    case DoraIndicator => None
    case RedFive => None
  }

  predicate HasTier(k: WinKey) {
    Tier(k) == Some(Single) || Tier(k) == Some(Double)
  }

  /** The twelve keys whose entries carry a yaakuman tier. */
  const TieredKeys: set<WinKey> :=
    {ThirteenOrphans, BigThreeDragons, LittleFourWinds, BigFourWinds, AllTerminals, AllHonors,
     FourConcealedTriplets, SingleWaitFourConcealedTriplets, FourKans, AllGreen, TrueNineGates, NineGates}

  /** The three keys whose tier is Double. */
  const DoubleKeys: set<WinKey> := {BigFourWinds, SingleWaitFourConcealedTriplets, TrueNineGates}

  /** Exactly the twelve tiered keys carry a tier; exactly three of them are Double. */
  lemma TieredEntries(k: WinKey)
    ensures HasTier(k) <==> k in TieredKeys
    ensures Tier(k) == Some(Double) <==> k in DoubleKeys
  {
    match k {
      case DoubleRiichi => 
      case Riichi => 
      case Ippatsu => 
      case MenzenchinTsumo => 
      case UnderTheSea => 
      case UnderTheRiver => 
      case RinshanKaihou => 
      case RobbingAKan => 
      case SevenPairs => 
      case ThirteenOrphans => 
      case Pinfu => 
      case PureDoubleSequence => 
      case TwicePureDoubleSequence => 
      case YakuhaiDragons => 
      case PrevalentWind => 
      case SeatWind => 
      case LittleThreeDragons => 
      case BigThreeDragons => 
      case LittleFourWinds => 
      case BigFourWinds => 
      case MixedTripleSequence => 
      case PureStraight => 
      case AllTerminals => 
      case AllHonors => 
      case AllSimples => 
      case FullOutsideHand => 
      case HalfOutsideHand => 
      case AllTriplets => 
      case ThreeConcealedTriplets => 
      case FourConcealedTriplets => 
      case SingleWaitFourConcealedTriplets => 
      case ThreeKans => 
      case FourKans => 
      case TripleTriplets => 
      case AllGreen => 
      case TrueNineGates => 
      case NineGates => 
      case FullFlush => 
      case HalfFlush => 
      case DoraIndicator => 
      case RedFive => 
    }
  }

  /** A tiered entry scores no han in either state: each han is 0 or null. */
  lemma TieredEntriesHaveNoHan(k: WinKey)
    requires HasTier(k)
    ensures OpenHan(k) == None || OpenHan(k) == Some(0)
    ensures ClosedHan(k) == None || ClosedHan(k) == Some(0)
  {
    match k {
      case DoubleRiichi => 
      case Riichi => 
      case Ippatsu => 
      case MenzenchinTsumo => 
      case UnderTheSea => 
      case UnderTheRiver => 
      case RinshanKaihou => 
      case RobbingAKan => 
      case SevenPairs => 
      case ThirteenOrphans => 
      case Pinfu => 
      case PureDoubleSequence => 
      case TwicePureDoubleSequence => 
      case YakuhaiDragons => 
      case PrevalentWind => 
      case SeatWind => 
      case LittleThreeDragons => 
      case BigThreeDragons => 
      case LittleFourWinds => 
      case BigFourWinds => 
      case MixedTripleSequence => 
      case PureStraight => 
      case AllTerminals => 
      case AllHonors => 
      case AllSimples => 
      case FullOutsideHand => 
      case HalfOutsideHand => 
      case AllTriplets => 
      case ThreeConcealedTriplets => 
      case FourConcealedTriplets => 
      case SingleWaitFourConcealedTriplets => 
      case ThreeKans => 
      case FourKans => 
      case TripleTriplets => 
      case AllGreen => 
      case TrueNineGates => 
      case NineGates => 
      case FullFlush => 
      case HalfFlush => 
      case DoraIndicator => 
      case RedFive => 
    }
  }

  /** The six wins that need a closed hand, by their null open han. */
  predicate ClosedOnly(k: WinKey) {
    k == DoubleRiichi || k == Riichi || k == Ippatsu || k == MenzenchinTsumo || k == SevenPairs || k == Pinfu
  }

  /**
   * Every untiered entry has at least one closed han except All Triplets,
   * whose closed han is null; its open han is null exactly for the six
   * closed-only wins and at least one otherwise.
   */
  lemma UntieredEntriesHaveHan(k: WinKey)
    requires !HasTier(k)
    ensures k == AllTriplets <==> ClosedHan(k).None?
    ensures k != AllTriplets ==> ClosedHan(k).value >= 1
    ensures ClosedOnly(k) <==> OpenHan(k).None?
    ensures !ClosedOnly(k) ==> OpenHan(k).value >= 1
  {
    match k {
      case DoubleRiichi => 
      case Riichi => 
      case Ippatsu => 
      case MenzenchinTsumo => 
      case UnderTheSea => 
      case UnderTheRiver => 
      case RinshanKaihou => 
      case RobbingAKan => 
      case SevenPairs => 
      case ThirteenOrphans => 
      case Pinfu => 
      case PureDoubleSequence => 
      case TwicePureDoubleSequence => 
      case YakuhaiDragons => 
      case PrevalentWind => 
      case SeatWind => 
      case LittleThreeDragons => 
      case BigThreeDragons => 
      case LittleFourWinds => 
      case BigFourWinds => 
      case MixedTripleSequence => 
      case PureStraight => 
      case AllTerminals => 
      case AllHonors => 
      case AllSimples => 
      case FullOutsideHand => 
      case HalfOutsideHand => 
      case AllTriplets => 
      case ThreeConcealedTriplets => 
      case FourConcealedTriplets => 
      case SingleWaitFourConcealedTriplets => 
      case ThreeKans => 
      case FourKans => 
      case TripleTriplets => 
      case AllGreen => 
      case TrueNineGates => 
      case NineGates => 
      case FullFlush => 
      case HalfFlush => 
      case DoraIndicator => 
      case RedFive => 
    }
  }

}
