/**
 * The tile value layer of scripts/MahjongDataTypes.ts: suits, the `Tile`
 * record and its constructor checks, the two-character tile code, and the
 * shape predicates on lists of tiles used by the evaluator.
 */
module Tiles {
  import opened Wrappers
  import Ranks
  type Rank = Ranks.Rank

  datatype Suit = Bamboo | Dot | Character | Honor | Back | NaN

  /** A tile never changes after construction: it is a value. */
  datatype Tile = Tile(suit: Suit, rank: Rank, isRed: bool, isCalled: bool)

  /** Why the `Tile` constructor or `parse` throws `InvalidTileError`. */
  datatype TileError =
    | NaNSuitOrRank
    | BackMismatch
    | HonorSuitWithoutHonorRank
    | HonorRankWithoutHonorSuit
    | RedNotFive
    | InvalidRankChar
    | InvalidSuitChar

  predicate IsNumberSuit(suit: Suit) {
    suit == Bamboo || suit == Dot || suit == Character
  }

  /**
   * The identities the constructor admits, stated declaratively: no NaN,
   * Back suit exactly with Back rank, honors with a dragon or wind, number
   * suits with One..Nine, and red only on a Five.
   */
  predicate ValidIdentity(suit: Suit, rank: Rank, red: bool) {
    && suit != NaN && rank != Ranks.NaN
    && (suit == Back <==> rank == Ranks.Back)
    && (suit == Honor ==> Ranks.GreenDragon <= rank <= Ranks.NorthWind)
    && (IsNumberSuit(suit) ==> Ranks.One <= rank <= Ranks.Nine)
    && (red ==> rank == Ranks.Five)
  }

  /** A tile the constructor could have produced. */
  predicate IsValidTile(t: Tile) {
    ValidIdentity(t.suit, t.rank, t.isRed)
  }

  /** The `Tile` constructor: its checks in the source's order. */
  function NewTile(suit: Suit, rank: Rank, red: bool, called: bool): (r: Result<Tile, TileError>)
    ensures r.Success? <==> ValidIdentity(suit, rank, red)
    ensures r.Success? ==> r.value == Tile(suit, rank, red, called)
    ensures suit == NaN || rank == Ranks.NaN ==> r == Failure(NaNSuitOrRank)
  {
    if suit == NaN || rank == Ranks.NaN then Failure(NaNSuitOrRank)
    else if (suit == Back || rank == Ranks.Back) && (suit != Back || rank != Ranks.Back) then
      Failure(BackMismatch)
    else if suit == Honor && rank < Ranks.GreenDragon then Failure(HonorSuitWithoutHonorRank)
    else if suit != Honor && rank >= Ranks.GreenDragon && rank != Ranks.Back then
      Failure(HonorRankWithoutHonorSuit)
    else if rank != Ranks.Five && red then Failure(RedNotFive)
    else Success(Tile(suit, rank, red, called))
  }

  /** Tiles counted for the All Green win. */
  predicate IsGreen(t: Tile) {
    || (t.suit == Bamboo && (t.rank == Ranks.Two || t.rank == Ranks.Three || t.rank == Ranks.Four
                           || t.rank == Ranks.Six || t.rank == Ranks.Eight))
    || (t.suit == Honor && t.rank == Ranks.GreenDragon)
  }

  /** Green tiles are bamboo simples other than Five and Seven, or the green dragon; never terminals. */
  lemma GreenTilesAreSimpleBambooOrGreenDragon(t: Tile)
    requires IsGreen(t)
    ensures !Ranks.IsTerminal(t.rank)
    ensures t.suit == Bamboo || t.suit == Honor
    ensures t.suit == Bamboo <==> Ranks.IsSimple(t.rank)
    ensures t.suit == Bamboo ==> t.rank != Ranks.Five && t.rank != Ranks.Seven
    ensures t.suit == Honor ==> t.rank == Ranks.GreenDragon
  {
  }

  /** `softEquals`: same suit and rank, and never for a Back rank. */
  predicate SoftEquals(a: Tile, b: Tile) {
    a.suit == b.suit && a.rank == b.rank && a.rank != Ranks.Back
  }

  /** softEquals is symmetric, fails on Back, and is reflexive on every other tile. */
  lemma SoftEqualsProperties(a: Tile, b: Tile)
    ensures SoftEquals(a, b) <==> SoftEquals(b, a)
    ensures a.rank == Ranks.Back || b.rank == Ranks.Back ==> !SoftEquals(a, b)
    ensures SoftEquals(a, a) <==> a.rank != Ranks.Back
  {
  }

  // ---------------------------------------------------------------------
  // The two-character tile code
  // ---------------------------------------------------------------------

  function RankChar(rank: Rank, isRed: bool): string {
    if rank == Ranks.One then "1"
    else if rank == Ranks.Two then "2"
    else if rank == Ranks.Three then "3"
    else if rank == Ranks.Four then "4"
    else if rank == Ranks.Five then (if isRed then "$" else "5")
    else if rank == Ranks.Six then "6"
    else if rank == Ranks.Seven then "7"
    else if rank == Ranks.Eight then "8"
    else "9"
  }

  /** `shortStringifyData`: "NaN" for a rank/suit mismatch, else the two-character code. */
  function ShortStringifyData(rank: Rank, suit: Suit, isRed: bool): (s: string)
    ensures |s| == 2 || s == "NaN"
  {
    if Ranks.IsNumber(rank) && !IsNumberSuit(suit) then "NaN"
    else if Ranks.IsHonor(rank) && suit != Honor then "NaN"
    else if rank == Ranks.NaN || suit == NaN then "NaN"
    else
      var suitChar := if suit == Bamboo then "b" else if suit == Character then "n"
                      else if suit == Dot then "d" else "";
      if Ranks.IsNumber(rank) then RankChar(rank, isRed) + suitChar
      else if rank == Ranks.GreenDragon then "gd"
      else if rank == Ranks.RedDragon then "rd"
      else if rank == Ranks.WhiteDragon then "wd"
      else if rank == Ranks.EastWind then "ew"
      else if rank == Ranks.SouthWind then "sw"
      else if rank == Ranks.WestWind then "ww"
      else if rank == Ranks.NorthWind then "nw"
      else "xx"
  }

  /**
   * The first `switch` of `parse`: rank and red flag from the first character.
   * The source has two `'w'` cases; the first one wins, so 'w' is always
   * WhiteDragon and the WestWind case below never fires.
   */
  function RankOfChar(c: char): Option<(Rank, bool)> {
    if c == '1' then Some((Ranks.One, false))
    else if c == '2' then Some((Ranks.Two, false))
    else if c == '3' then Some((Ranks.Three, false))
    else if c == '4' then Some((Ranks.Four, false))
    else if c == '5' then Some((Ranks.Five, false))
    else if c == '$' then Some((Ranks.Five, true))
    else if c == '6' then Some((Ranks.Six, false))
    else if c == '7' then Some((Ranks.Seven, false))
    else if c == '8' then Some((Ranks.Eight, false))
    else if c == '9' then Some((Ranks.Nine, false))
    else if c == 'g' then Some((Ranks.GreenDragon, false))
    else if c == 'r' then Some((Ranks.RedDragon, false))
    else if c == 'w' then Some((Ranks.WhiteDragon, false))
    else if c == 'e' then Some((Ranks.EastWind, false))
    else if c == 's' then Some((Ranks.SouthWind, false))
    else if c == 'w' then Some((Ranks.WestWind, false))
    else if c == 'n' then Some((Ranks.NorthWind, false))
    else if c == 'x' then Some((Ranks.Back, false))
    else None
  }

  /**
   * The second `switch` of `parse`: the suit from the second character. The
   * number suits come first, so 'n' means Character and 'd' means Dot, which
   * is why the dragon codes "gd", "rd" and "wd" do not parse as honors.
   */
  function SuitOfChar(c: char): Option<Suit> {
    if c == 'b' then Some(Bamboo)
    else if c == 'n' then Some(Character)
    else if c == 'd' then Some(Dot)
    else if c == 'g' || c == 'r' || c == 'w' || c == 'e' || c == 's' then Some(Honor)
    else if c == 'w' || c == 'n' then Some(Honor)
    else if c == 'x' then Some(Back)
    else None
  }

  /** `parse`: a missing character reads as `undefined` and hits the default case. */
  function Parse(s: string, called: bool): (r: Result<Tile, TileError>)
    ensures r.Success? ==> IsValidTile(r.value) && r.value.isCalled == called
  {
    var rank := if |s| > 0 then RankOfChar(s[0]) else None;
    if rank.None? then Failure(InvalidRankChar)
    else
      var suit := if |s| > 1 then SuitOfChar(s[1]) else None;
      if suit.None? then Failure(InvalidSuitChar)
      else NewTile(suit.value, rank.value.0, rank.value.1, called)
  }

  /** Identities whose code `parse` reads back unchanged. */
  predicate RoundTrips(rank: Rank) {
    Ranks.IsNumber(rank) || rank == Ranks.Back
    || rank == Ranks.EastWind || rank == Ranks.SouthWind || rank == Ranks.NorthWind
  }

  /** Number tiles, the Back tile and the East, South and North winds survive the code. */
  lemma ParseInvertsShortStringify(suit: Suit, rank: Rank, red: bool, called: bool)
    requires ValidIdentity(suit, rank, red)
    requires RoundTrips(rank)
    ensures Parse(ShortStringifyData(rank, suit, red), called) == Success(Tile(suit, rank, red, called))
  {
  }

  /** The West Wind code comes back as the White Dragon. */
  lemma ParseWestWindIsWhiteDragon(called: bool)
    ensures ShortStringifyData(Ranks.WestWind, Honor, false) == "ww"
    ensures Parse("ww", called) == Success(Tile(Honor, Ranks.WhiteDragon, false, called))
  {
  }

  /** The dragon codes fail to parse: their second character names the Dot suit. */
  lemma ParseRejectsDragonCodes(rank: Rank, called: bool)
    requires Ranks.IsDragon(rank)
    ensures Parse(ShortStringifyData(rank, Honor, false), called) == Failure(HonorRankWithoutHonorSuit)
  {
  }

  // ---------------------------------------------------------------------
  // Shape predicates on lists of tiles
  // ---------------------------------------------------------------------

  predicate IsPair(tiles: seq<Tile>) {
    |tiles| == 2 && SoftEquals(tiles[0], tiles[1])
  }

  predicate IsTriplet(tiles: seq<Tile>) {
    |tiles| == 3 && SoftEquals(tiles[0], tiles[1]) && SoftEquals(tiles[1], tiles[2])
  }

  /** `isSequence`: one non-honor suit, ranks consecutive in any of the six orders. */
  predicate IsSequence(tiles: seq<Tile>) {
    && |tiles| == 3
    && tiles[0].suit == tiles[1].suit && tiles[1].suit == tiles[2].suit
    && tiles[0].suit != Honor && tiles[0].suit != NaN
    && var a, b, c := tiles[0].rank, tiles[1].rank, tiles[2].rank;
       || (a + 1 == b && b + 1 == c)
       || (a + 1 == c && c + 1 == b)
       || (b + 1 == a && a + 1 == c)
       || (b + 1 == c && c + 1 == a)
       || (c + 1 == a && a + 1 == b)
       || (c + 1 == b && b + 1 == a)
  }

  function Min3(a: int, b: int, c: int): int {
    if a <= b && a <= c then a else if b <= c then b else c
  }

  function Max3(a: int, b: int, c: int): int {
    if a >= b && a >= c then a else if b >= c then b else c
  }

  /** A sequence is three tiles of one non-honor suit with three distinct ranks spanning two steps. */
  lemma IsSequenceIsRun(tiles: seq<Tile>)
    requires |tiles| == 3
    ensures IsSequence(tiles) <==>
      && tiles[0].suit == tiles[1].suit == tiles[2].suit
      && tiles[0].suit != Honor && tiles[0].suit != NaN
      && var a, b, c := tiles[0].rank, tiles[1].rank, tiles[2].rank;
         a != b && b != c && a != c && Max3(a, b, c) - Min3(a, b, c) == 2
  {
  }

  /** `isSequence` does not depend on the order of its three tiles. */
  lemma IsSequencePermutationInvariant(xs: seq<Tile>, ys: seq<Tile>)
    requires |xs| == 3 && multiset(xs) == multiset(ys)
    ensures IsSequence(xs) <==> IsSequence(ys)
  {
    assert |ys| == |multiset(ys)| == 3;
    assert xs[0] in multiset(ys) && xs[1] in multiset(ys) && xs[2] in multiset(ys);
    assert ys[0] in multiset(xs) && ys[1] in multiset(xs) && ys[2] in multiset(xs);
    assert multiset(xs)[xs[0]] == multiset(ys)[xs[0]];
    assert multiset(xs)[xs[1]] == multiset(ys)[xs[1]];
    assert multiset(xs)[ys[0]] == multiset(ys)[ys[0]];
    assert multiset(xs)[ys[1]] == multiset(ys)[ys[1]];
  }

  /** Tiles that the kan check does not treat as a face-down back. */
  predicate Revealed(t: Tile) {
    t.suit != Back && t.rank != Ranks.Back
  }

  function Revealeds(tiles: seq<Tile>): (r: seq<Tile>)
    ensures |r| <= |tiles|
  {
    if tiles == [] then []
    else (if Revealed(tiles[0]) then [tiles[0]] else []) + Revealeds(tiles[1..])
  }

  /** `isKan`: four soft-equal tiles, or a pair among the non-back tiles. */
  predicate IsKan(tiles: seq<Tile>) {
    && |tiles| == 4
    && ((SoftEquals(tiles[0], tiles[1]) && SoftEquals(tiles[1], tiles[2]) && SoftEquals(tiles[2], tiles[3]))
        || IsPair(Revealeds(tiles)))
  }

  /** Exactly the positions `p` and `q` of `tiles` are not backs, and they form a pair. */
  predicate RevealedPairAt(tiles: seq<Tile>, p: int, q: int) {
    && 0 <= p < q < |tiles|
    && SoftEquals(tiles[p], tiles[q])
    && forall x :: 0 <= x < |tiles| ==> (Revealed(tiles[x]) <==> x == p || x == q)
  }

  function RevealedAt(tiles: seq<Tile>, x: int): seq<Tile>
    requires 0 <= x < |tiles|
  {
    if Revealed(tiles[x]) then [tiles[x]] else []
  }

  lemma RevealedsOfFour(tiles: seq<Tile>)
    requires |tiles| == 4
    ensures Revealeds(tiles)
      == RevealedAt(tiles, 0) + RevealedAt(tiles, 1) + RevealedAt(tiles, 2) + RevealedAt(tiles, 3)
  {
    var t1, t2, t3 := tiles[1..], tiles[2..], tiles[3..];
    assert t1[1..] == t2 && t2[1..] == t3 && t3[1..] == [];
    assert Revealeds(t3) == RevealedAt(tiles, 3) + Revealeds([]);
    assert Revealeds(t2) == RevealedAt(tiles, 2) + Revealeds(t3);
    assert Revealeds(t1) == RevealedAt(tiles, 1) + Revealeds(t2);
    assert Revealeds(tiles) == RevealedAt(tiles, 0) + Revealeds(t1);
  }

  /** A kan is four copies of one non-back identity, or exactly two revealed soft-equal tiles. */
  lemma IsKanCharacterization(tiles: seq<Tile>)
    requires |tiles| == 4
    ensures IsKan(tiles) <==>
      || (forall x :: 0 <= x < 4 ==> SoftEquals(tiles[0], tiles[x]))
      || (exists p, q :: RevealedPairAt(tiles, p, q))
  {
    RevealedsOfFour(tiles);
    var r0, r1, r2, r3 := Revealed(tiles[0]), Revealed(tiles[1]), Revealed(tiles[2]), Revealed(tiles[3]);
    if IsPair(Revealeds(tiles)) {
      if r0 && r1 { assert RevealedPairAt(tiles, 0, 1); }
      else if r0 && r2 { assert RevealedPairAt(tiles, 0, 2); }
      else if r0 && r3 { assert RevealedPairAt(tiles, 0, 3); }
      else if r1 && r2 { assert RevealedPairAt(tiles, 1, 2); }
      else if r1 && r3 { assert RevealedPairAt(tiles, 1, 3); }
      else { assert RevealedPairAt(tiles, 2, 3); }
    }
    if exists p, q :: RevealedPairAt(tiles, p, q) {
      var p, q :| RevealedPairAt(tiles, p, q);
      assert Revealeds(tiles) == [tiles[p], tiles[q]];
    }
  }

  /** `isMeld`: a triplet or sequence of three, a kan of four, nothing else. */
  predicate IsMeld(tiles: seq<Tile>) {
    if |tiles| != 3 && |tiles| != 4 then false
    else if |tiles| == 3 then IsTriplet(tiles) || IsSequence(tiles)
    else IsKan(tiles)
  }

  // ---------------------------------------------------------------------
  // hasQuintuplet
  // ---------------------------------------------------------------------

  /** How many tiles of `tiles` have the given suit and rank. */
  function Occurrences(tiles: seq<Tile>, suit: Suit, rank: Rank): (n: nat)
    ensures n <= |tiles|
  {
    if tiles == [] then 0
    else Occurrences(tiles[..|tiles| - 1], suit, rank)
         + (if tiles[|tiles| - 1].suit == suit && tiles[|tiles| - 1].rank == rank then 1 else 0)
  }

  /** Some non-back identity occurs at least five times. */
  predicate HasFiveCopies(tiles: seq<Tile>) {
    exists k :: 0 <= k < |tiles| && tiles[k].rank != Ranks.Back
                && Occurrences(tiles, tiles[k].suit, tiles[k].rank) >= 5
  }

  /** Number of positions in [lo, hi) holding a tile soft-equal to `x` (`x` first). */
  function MatchesIn(tiles: seq<Tile>, x: Tile, lo: nat, hi: nat): (n: nat)
    requires lo <= hi <= |tiles|
    ensures n <= hi - lo
    decreases hi
  {
    if hi == lo then 0
    else MatchesIn(tiles, x, lo, hi - 1) + (if SoftEquals(x, tiles[hi - 1]) then 1 else 0)
  }

  lemma {:induction false} MatchesInSplit(tiles: seq<Tile>, x: Tile, lo: nat, mid: nat, hi: nat)
    requires lo <= mid <= hi <= |tiles|
    ensures MatchesIn(tiles, x, lo, hi) == MatchesIn(tiles, x, lo, mid) + MatchesIn(tiles, x, mid, hi)
    decreases hi
  {
    if hi > mid {
      MatchesInSplit(tiles, x, lo, mid, hi - 1);
    }
  }

  /** For a non-back `x`, counting soft-equal tiles counts its identity. */
  lemma {:induction false} MatchesInIsOccurrences(tiles: seq<Tile>, x: Tile, hi: nat)
    requires hi <= |tiles| && x.rank != Ranks.Back
    ensures MatchesIn(tiles, x, 0, hi) == Occurrences(tiles[..hi], x.suit, x.rank)
    decreases hi
  {
    if hi > 0 {
      MatchesInIsOccurrences(tiles, x, hi - 1);
      assert tiles[..hi][..hi - 1] == tiles[..hi - 1];
    }
  }

  /** The first position of the identity of `tiles[k]`, and nothing before it matches. */
  lemma {:induction false} FirstOccurrence(tiles: seq<Tile>, k: nat) returns (p: nat)
    requires k < |tiles| && tiles[k].rank != Ranks.Back
    ensures p <= k && SoftEquals(tiles[p], tiles[k])
    ensures MatchesIn(tiles, tiles[k], 0, p) == 0
    decreases k
  {
    if MatchesIn(tiles, tiles[k], 0, k) == 0 {
      p := k;
    } else {
      var j := k - 1;
      MatchesInSplit(tiles, tiles[k], 0, j, k);
      if MatchesIn(tiles, tiles[k], 0, j) == 0 {
        p := j;
        assert SoftEquals(tiles[k], tiles[j]);
      } else {
        // some earlier position matches: search below j with the same identity
        var q := FirstMatchBelow(tiles, tiles[k], j);
        p := q;
      }
    }
  }

  /** Some position below `hi` matches `x`: return the first one. */
  lemma {:induction false} FirstMatchBelow(tiles: seq<Tile>, x: Tile, hi: nat) returns (p: nat)
    requires hi <= |tiles| && MatchesIn(tiles, x, 0, hi) > 0
    ensures p < hi && SoftEquals(x, tiles[p]) && MatchesIn(tiles, x, 0, p) == 0
    decreases hi
  {
    if MatchesIn(tiles, x, 0, hi - 1) > 0 {
      p := FirstMatchBelow(tiles, x, hi - 1);
    } else {
      p := hi - 1;
    }
  }

  /** Five copies exist exactly when some position is followed by four soft-equal tiles. */
  lemma FiveCopiesIffFourLater(tiles: seq<Tile>)
    ensures HasFiveCopies(tiles) <==>
      exists p :: 0 <= p < |tiles| && MatchesIn(tiles, tiles[p], p + 1, |tiles|) >= 4
  {
    if HasFiveCopies(tiles) {
      var p := FiveCopiesHaveFourLater(tiles);
    }
    if exists p :: 0 <= p < |tiles| && MatchesIn(tiles, tiles[p], p + 1, |tiles|) >= 4 {
      var p :| 0 <= p < |tiles| && MatchesIn(tiles, tiles[p], p + 1, |tiles|) >= 4;
      FourLaterAreFiveCopies(tiles, p);
    }
  }

  lemma FiveCopiesHaveFourLater(tiles: seq<Tile>) returns (p: nat)
    requires HasFiveCopies(tiles)
    ensures p < |tiles| && MatchesIn(tiles, tiles[p], p + 1, |tiles|) >= 4
  {
    var n := |tiles|;
    assert tiles[..n] == tiles;
    var k :| 0 <= k < n && tiles[k].rank != Ranks.Back
             && Occurrences(tiles, tiles[k].suit, tiles[k].rank) >= 5;
    MatchesInIsOccurrences(tiles, tiles[k], n);
    p := FirstOccurrence(tiles, k);
    MatchesInSplit(tiles, tiles[k], 0, p, n);
    MatchesInSplit(tiles, tiles[k], p, p + 1, n);
    SameIdentitySameMatches(tiles, tiles[k], tiles[p], p + 1, n);
  }

  lemma FourLaterAreFiveCopies(tiles: seq<Tile>, p: nat)
    requires p < |tiles| && MatchesIn(tiles, tiles[p], p + 1, |tiles|) >= 4
    ensures HasFiveCopies(tiles)
  {
    var n := |tiles|;
    assert tiles[..n] == tiles;
    assert tiles[p].rank != Ranks.Back by {
      if tiles[p].rank == Ranks.Back { NoMatchesForBack(tiles, tiles[p], p + 1, n); }
    }
    MatchesInSplit(tiles, tiles[p], 0, p + 1, n);
    MatchesInSplit(tiles, tiles[p], 0, p, p + 1);
    MatchesInIsOccurrences(tiles, tiles[p], n);
  }

  lemma {:induction false} SameIdentitySameMatches(tiles: seq<Tile>, x: Tile, y: Tile, lo: nat, hi: nat)
    requires lo <= hi <= |tiles| && SoftEquals(x, y)
    ensures MatchesIn(tiles, x, lo, hi) == MatchesIn(tiles, y, lo, hi)
    decreases hi
  {
    if hi > lo { SameIdentitySameMatches(tiles, x, y, lo, hi - 1); }
  }

  lemma {:induction false} NoMatchesForBack(tiles: seq<Tile>, x: Tile, lo: nat, hi: nat)
    requires lo <= hi <= |tiles| && x.rank == Ranks.Back
    ensures MatchesIn(tiles, x, lo, hi) == 0
    decreases hi
  {
    if hi > lo { NoMatchesForBack(tiles, x, lo, hi - 1); }
  }

  /**
   * `hasQuintuplet`: for each start position, count later soft-equal tiles
   * down from three, stopping the scan once too few positions remain.
   */
  method HasQuintuplet(tiles: seq<Tile>) returns (found: bool)
    ensures found <==> HasFiveCopies(tiles)
  {
    FiveCopiesIffFourLater(tiles);
    var n := |tiles|;
    if n < 5 {
      return false;
    }
    var i := 0;
    while i < n - 4
      invariant 0 <= i <= n - 4
      invariant forall p :: 0 <= p < i ==> MatchesIn(tiles, tiles[p], p + 1, n) < 4
    {
      var matches := 3;
      var j := i + 1;
      while j < n - matches
        invariant i + 1 <= j <= n - matches
        invariant 0 <= matches <= 3
        invariant MatchesIn(tiles, tiles[i], i + 1, j) == 3 - matches
        decreases n - j
      {
        if SoftEquals(tiles[i], tiles[j]) {
          if matches == 0 {
            MatchesInSplit(tiles, tiles[i], i + 1, j + 1, n);
            return true;
          } else {
            matches := matches - 1;
          }
        }
        j := j + 1;
      }
      MatchesInSplit(tiles, tiles[i], i + 1, j, n);
      i := i + 1;
    }
    forall p | i <= p < n ensures MatchesIn(tiles, tiles[p], p + 1, n) < 4 { }
    return false;
  }
}
