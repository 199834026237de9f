/**
 * The numeric `Rank` enumeration of scripts/MahjongDataTypes.ts and the
 * classifiers of its `Rank` namespace. Ranks are used arithmetically by the
 * evaluator (`rank + 1`, sorting by `a.rank - b.rank`), so a rank is an
 * integer with the enumeration's values as named constants.
 */
module Ranks {

  type Rank = r: int | 0 <= r <= 17

  const NaN: Rank := 0
  const One: Rank := 1
  const Two: Rank := 2
  const Three: Rank := 3
  const Four: Rank := 4
  const Five: Rank := 5
  const Six: Rank := 6
  const Seven: Rank := 7
  const Eight: Rank := 8
  const Nine: Rank := 9
  const GreenDragon: Rank := 10
  const RedDragon: Rank := 11
  const WhiteDragon: Rank := 12
  const EastWind: Rank := 13
  const SouthWind: Rank := 14
  const WestWind: Rank := 15
  const NorthWind: Rank := 16
  const Back: Rank := 17

  /** As written in the source this holds only of the NaN rank. */
  predicate IsValid(rank: Rank) {
    rank == NaN
  }

  predicate IsHonor(rank: Rank) {
    GreenDragon <= rank <= NorthWind
  }

  predicate IsWind(rank: Rank) {
    EastWind <= rank <= NorthWind
  }

  predicate IsDragon(rank: Rank) {
    GreenDragon <= rank <= WhiteDragon
  }

  predicate IsNumber(rank: Rank) {
    One <= rank <= Nine
  }

  predicate IsTerminal(rank: Rank) {
    rank == One || rank == Nine
  }

  predicate IsSimple(rank: Rank) {
    Two <= rank <= Eight
  }

  /**
   * The successor used for dora. The first guard is a disjunction that every
   * integer satisfies, so the wind and dragon branches never run: every rank
   * but Nine steps to the next integer (NorthWind to Back, WhiteDragon to
   * EastWind, Back to 18) and Nine wraps to One.
   */
  function CyclicNext(rank: Rank): (next: int)
    ensures rank == Nine ==> next == One
    ensures rank != Nine ==> next == rank + 1
  {
    if rank >= One || rank <= Nine then
      if rank == Nine then One else rank + 1
    else if rank >= EastWind || rank <= NorthWind then
      if rank == NorthWind then EastWind else rank + 1
    else if rank >= GreenDragon || rank <= WhiteDragon then
      if rank == WhiteDragon then GreenDragon else rank + 1
    else
      NaN
  }

  /** Honors split into dragons and winds, with no rank in both. */
  lemma HonorIsDragonOrWind(rank: Rank)
    ensures IsHonor(rank) <==> IsDragon(rank) || IsWind(rank)
    ensures !(IsDragon(rank) && IsWind(rank))
  {
  }

  /** Number ranks split into terminals and simples, with no rank in both. */
  lemma NumberIsTerminalOrSimple(rank: Rank)
    ensures IsNumber(rank) <==> IsTerminal(rank) || IsSimple(rank)
    ensures !(IsTerminal(rank) && IsSimple(rank))
  {
  }

  /** `isValid` rejects every real rank and accepts only NaN. */
  lemma IsValidIsInverted(rank: Rank)
    ensures IsValid(rank) <==> rank == NaN
    ensures rank != NaN ==> !IsValid(rank)
  {
  }

  /** The wind and dragon wrap-arounds written in `getCyclicNext` never happen. */
  lemma CyclicNextHonorWraps()
    ensures CyclicNext(NorthWind) == Back
    ensures CyclicNext(WhiteDragon) == EastWind
    ensures CyclicNext(Nine) == One
    ensures CyclicNext(Back) == 18
  {
  }
}
