# Riichi mahjong hand evaluator

This project models the hand evaluator of a riichi-mahjong score calculator:

- the tile value layer (suits, ranks, the `Tile` constructor's checks, the
  two-character tile code, and the shape tests for pairs, triplets, sequences,
  kans and melds);
- the constant `WinCatalog` table of scoring categories ("wins");
- the `Hand` class, with its validation of the tiles on the table and
  `scoreHand`, which collects the wins, counts dora, han and fu, and works out
  the base points and the payments;
- `HandGrouper.CreateClosedGroups`, which splits the concealed tiles plus the
  winning tile into groups: seven pairs first, then thirteen orphans,
  otherwise a greedy loop that sorts the tiles and takes melds and a pair out
  of them;
- `applyDefaults`, the helper that merges default CSS classes into a
  caller's class string.

Every function that throws returns a `Result` here, or an `Option` of the
error for the validation checks, and the error kinds stand in for the messages. Each loop of the source is a method with a `while` loop,
proved equal to a recursive function that follows the same loop. The
properties are proved as lemmas about those functions. `Hand` is a class
whose `AddGroup` and `AddClosedTile` append to its fields. The
`applyDefaults` flags are an `array<bool>` that the inner loop updates in
place.

Files:

- `ranks.dfy`: ranks as integers 0..17 and the rank classifiers.
- `tiles.dfy`: suits, tiles, the tile code and the shape tests.
- `catalog.dfy`: the win table.
- `validation.dfy`: `isClosed` and `ValidateHandAndTiles`.
- `handgrouper.dfy`: the grouping of the closed tiles.
- `wins.dfy`: the list of wins.
- `scoring.dfy`: dora, han, fu, base points, payments and the `Hand` class.
- `classnames.dfy`: `applyDefaults`.
- `sequences.dfy` and `wrappers.dfy`: shared helpers.

The source quirks are kept as written:

- `getCyclicNext` steps every rank but Nine to the next integer.
- `parse` reads "w" as the white dragon, and it rejects the dragon codes.
- `Rank.isValid` holds only of `NaN`.
- Big Four Winds needs 34 wind groups.
- Every lowest rank in the Triple Triplets scan is One.
- `winIndex + 1 % 3` reads past the group and throws.
- The Tsumo fu is added only when Pinfu sits at index 1 of the win list.
- The shadowed `g` in the closed-triplet fu test is kept.

## Model

| member | source | states |
|---|---|---|
| Ranks.CyclicNext | scripts/MahjongDataTypes.ts:73-100 | Nine steps to One and every other rank to the next integer, because the first guard (`>= One \|\| <= Nine`) holds of every rank |
| Ranks.CyclicNextHonorWraps | scripts/MahjongDataTypes.ts:73-100 | the wind and dragon wrap-arounds never run: NorthWind gives Back, WhiteDragon gives EastWind, Nine gives One |
| Ranks.HonorIsDragonOrWind | scripts/MahjongDataTypes.ts:43-56 | an honor rank is a dragon or a wind, and never both |
| Ranks.NumberIsTerminalOrSimple | scripts/MahjongDataTypes.ts:58-71 | a number rank is a terminal or a simple, and never both |
| Ranks.IsValidIsInverted | scripts/MahjongDataTypes.ts:38-41 | `isValid` accepts only NaN and rejects every real rank |
| Tiles.NewTile | scripts/MahjongDataTypes.ts:151-173 | the constructor succeeds exactly for a valid identity (no NaN, Back suit iff Back rank, ranks 10..16 on the honor suit and 1..9 on a number suit, red only on a Five) and then keeps its four fields; a NaN suit or rank gives the NaN error |
| Tiles.GreenTilesAreSimpleBambooOrGreenDragon | scripts/MahjongDataTypes.ts:175-184 | a green tile is a bamboo simple other than Five and Seven, or the green dragon, and never a terminal |
| Tiles.SoftEqualsProperties | scripts/MahjongDataTypes.ts:405-408 | `softEquals` is symmetric, is false whenever either tile is a back, and is reflexive exactly on non-back tiles |
| Tiles.ShortStringifyData | scripts/MahjongDataTypes.ts:191-235 | every code is two characters, or "NaN" |
| Tiles.Parse | scripts/MahjongDataTypes.ts:252-298 | a parsed tile passes the constructor's checks and carries the `called` flag |
| Tiles.ParseInvertsShortStringify | scripts/MahjongDataTypes.ts:191-298 | parsing the code of a number tile, the back, or the east, south or north wind rebuilds the same suit, rank and red flag |
| Tiles.ParseWestWindIsWhiteDragon | scripts/MahjongDataTypes.ts:232-275 | "ww" is the west wind's code, but it parses as the white dragon because the first `'w'` case wins |
| Tiles.ParseRejectsDragonCodes | scripts/MahjongDataTypes.ts:151-298 | the dragon codes never parse back: their `'d'` reads as the Dot suit and the constructor rejects a dragon rank off the honor suit |
| Tiles.IsSequenceIsRun | scripts/MahjongDataTypes.ts:325-353 | three tiles are a sequence iff they share one suit that is neither honor nor NaN and their ranks are three consecutive integers in some order |
| Tiles.IsSequencePermutationInvariant | scripts/MahjongDataTypes.ts:325-353 | `isSequence` does not depend on the order of its three tiles |
| Tiles.IsKanCharacterization | scripts/MahjongDataTypes.ts:355-367 | four tiles are a kan iff all four are soft-equal, or exactly two are not backs and those two are soft-equal |
| Tiles.FiveCopiesIffFourLater | scripts/MahjongDataTypes.ts:383-403 | five copies of a non-back identity exist iff some tile is followed by four tiles soft-equal to it, which is what the early-returning loop looks for |
| Tiles.HasQuintuplet | scripts/MahjongDataTypes.ts:383-403 | the nested loop with its `matches` countdown answers true exactly when some non-back identity occurs at least five times |
| Catalog.TieredEntries | scripts/WinCatalog.ts:60-239 | exactly twelve entries carry a yaakuman tier, and exactly Big Four Winds, Single Wait Four Concealed Triplets and True Nine Gates are Double |
| Catalog.TieredEntriesHaveNoHan | scripts/WinCatalog.ts:60-239 | every tiered entry has open and closed han each 0 or null |
| Catalog.NamesDistinct | scripts/WinCatalog.ts:4-264 | no two of the 41 entries share a name |
| Catalog.UntieredEntriesHaveHan | scripts/WinCatalog.ts:4-264 | every untiered entry has a closed han of at least 1 except All Triplets, whose closed han is null; its open han is null exactly for Double Riichi, Riichi, Ippatsu, Menzenchin Tsumo, Seven Pairs and Pinfu, and at least 1 otherwise |
| Validation.ValidateHandAndTiles | scripts/Evaluator.ts:53-116 | the checks run in the source's order and return the first error, or none |
| Validation.CheckRedFives | scripts/Evaluator.ts:98-114 | the loop with three suit flags accepts the red fives iff there is at most one, or each is of a different number suit |
| Validation.ValidatedHandShape | scripts/Evaluator.ts:53-116 | a hand that passes has closed tiles plus three per open group (a kan included) equal to 14, no back among the closed tiles, only melds as open groups, no identity five times among the closed, dora and open tiles, and at most one red five per number suit |
| Validation.WrongCountIsRejected | scripts/Evaluator.ts:62-96 | a hand whose count is not 14, counting three per open group, is always rejected, and never for its red fives |
| Validation.AtMostThreeRedFives | scripts/Evaluator.ts:98-114 | accepted red fives number at most three |
| HandGrouper.SortByRankSortsStably | scripts/Evaluator.ts:760-764 | the sort by `a.rank - b.rank` orders by rank, keeps every tile, and keeps the tiles of each rank in their given order |
| HandGrouper.PairsFromKeepsInvariant | scripts/Evaluator.ts:643-656 | the pairs the greedy loop picks are soft-equal, ordered within each pair, and share no position |
| HandGrouper.GetSevenPairs | scripts/Evaluator.ts:636-662 | the nested loop answers the greedy seven-pairs grouping |
| HandGrouper.SevenPairsPartition | scripts/Evaluator.ts:636-662 | a seven-pairs answer is seven soft-equal pairs that use every tile once |
| HandGrouper.GetThirteenOrphans | scripts/Evaluator.ts:664-700 | the two loops answer none, the thirteen orphan groups, or the fourteen-orphans error |
| HandGrouper.OrphanGroupsPartition | scripts/Evaluator.ts:679-690 | the orphan groups use every tile once, each group holds only tiles soft-equal to its head, and no two heads are soft-equal |
| HandGrouper.NoFourteenOrphans | scripts/Evaluator.ts:692-693 | for tiles the constructor admits, the fourteen-orphans error never happens: only thirteen terminal and honor identities exist |
| HandGrouper.ScanFromIsFirst | scripts/Evaluator.ts:823-891 | the triple loop answers the first fitting triple in loop order, and answers none only when no triple fits |
| HandGrouper.ScanTriples | scripts/Evaluator.ts:823-891 | the `i`, `j`, `k` loop answers what the triple scan answers |
| HandGrouper.FindAnyMeld | scripts/Evaluator.ts:858-891 | the two triple loops answer the first triplet, else the first sequence |
| HandGrouper.AnyMeldNoneMeansNoMeld | scripts/Evaluator.ts:858-891 | `FindAnyMeld` answers none exactly when no three tiles form a triplet or a sequence |
| HandGrouper.FindNonSequenceTriplet | scripts/Evaluator.ts:823-856 | the loops with the inner `x`, `y` search answer the first triplet whose tile cannot join a sequence |
| HandGrouper.NonSequenceTripletSpec | scripts/Evaluator.ts:823-856 | an answered triplet is of honors or has no two other tiles completing a sequence with it; none is answered only when every triplet is of a number suit and can join a sequence |
| HandGrouper.MeldOptions | scripts/Evaluator.ts:905-920 | the `k`, `l` loops find exactly whether each tile of the pair can be melded with two other tiles |
| HandGrouper.MeldInRowsIsCanMeld | scripts/Evaluator.ts:905-920 | the rows the `k` loop visits cover every meld with the tile |
| HandGrouper.FindBestValidPairs | scripts/Evaluator.ts:893-935 | the loops answer the single pair returned early, or every pair kept |
| HandGrouper.BestPairsFromForcedOrMeldable | scripts/Evaluator.ts:896-934 | from any point of the loops, the answer is either one pair with a tile that cannot be melded with two other tiles, or a list of pairs both of whose tiles can be |
| HandGrouper.BestValidPairsMeaning | scripts/Evaluator.ts:893-935 | the answer is soft-equal ordered pairs, and is either the single forced pair returned early (a tile of it cannot be melded, so it must be the hand's pair) or pairs whose tiles can all also be melded |
| HandGrouper.BestPairsFromKeepsPairs | scripts/Evaluator.ts:893-935 | every answered pair is two ordered positions holding soft-equal tiles |
| HandGrouper.GroupStep | scripts/Evaluator.ts:728-817 | one pass of the `switch` on the number of tiles left either throws or takes one group out |
| HandGrouper.StepKeepsTiles | scripts/Evaluator.ts:728-817 | a pass that makes a group removes exactly that group's tiles; the group is a soft-equal pair or a three-tile meld; a pair is made only while none exists; afterwards a multiple of three tiles is left |
| HandGrouper.CreateClosedGroups | scripts/Evaluator.ts:702-821 | the seven-pairs and thirteen-orphans checks and then the loop answer the groups or the first error; on success the argument is left untouched for the two special shapes and emptied by the loop otherwise |
| HandGrouper.ReduceGroupsTiles | scripts/Evaluator.ts:725-818 | the loop's groups and the tiles still left together are the tiles it started with, every group it makes is a pair or a meld, and it makes at most one group per three tiles (plus one for the pair) |
| HandGrouper.ReducePairCount | scripts/Evaluator.ts:779-812 | the loop makes exactly one pair when no pair exists yet and the tile count is two more than a multiple of three, and none otherwise |
| HandGrouper.StepPairAlreadyMade | scripts/Evaluator.ts:779-783 | the "pair already made" error needs a pair already made and a tile count two more than a multiple of three |
| HandGrouper.ReduceNeverBreaks | scripts/Evaluator.ts:725-783 | the `loop_count > 10` guard and the "pair already made" error never fire: each pass removes two or three tiles from at most fourteen, and a multiple of three is left once the pair exists |
| HandGrouper.ProceedNeverBreaks | scripts/Evaluator.ts:725-783 | the same, for the loop resumed after a pass |
| HandGrouper.StepShrinks | scripts/Evaluator.ts:728-817 | a pass that makes a group started from at most fourteen tiles and leaves at least two fewer |
| HandGrouper.StepTooMany | scripts/Evaluator.ts:814-815 | more than fourteen tiles stop the loop with the "higher than 14" error |
| HandGrouper.ClosedGroupsErrors | scripts/Evaluator.ts:664-821 | `CreateClosedGroups` never fails on its iteration count or on a second pair, and for constructor-valid tiles never reports fourteen orphans |
| HandGrouper.ClosedGroupsFailures | scripts/Evaluator.ts:702-821 | a failure comes from the thirteen-orphans check or from the loop |
| HandGrouper.ThirteenOrphansFailures | scripts/Evaluator.ts:664-700 | the thirteen-orphans check fails only with fourteen orphans |
| HandGrouper.ReduceNeverFourteenOrphans | scripts/Evaluator.ts:725-818 | the loop never reports fourteen orphans |
| HandGrouper.ReduceAcceptsAtMostFourteen | scripts/Evaluator.ts:814-815 | the loop refuses more than fourteen tiles |
| HandGrouper.ClosedGroupsPartition | scripts/Evaluator.ts:702-821 | a successful grouping uses every tile once. Seven groups are seven soft-equal pairs of 14 tiles. Thirteen groups are orphan groups of 14 tiles with pairwise different heads. Any other answer has only pairs and three-tile melds, and exactly one pair when the tile count is 2 mod 3, none otherwise |
| Wins.FirstSoftEqual | scripts/Evaluator.ts:205 | the search answers the first position holding a tile soft-equal to the winning tile, or none when no position does |
| Wins.CheckPinfu | scripts/Evaluator.ts:197-217 | the `reduce` callback over the closed groups answers the Pinfu verdict or the read past the group |
| Wins.PinfuMeansSequences | scripts/Evaluator.ts:197-217 | a Pinfu verdict means every three-tile closed group is a sequence, and every sequence holding the winning tile holds it first |
| Wins.PinfuThrowsOnLateWinningTile | scripts/Evaluator.ts:205-212 | the Pinfu check throws only on a sequence holding the winning tile second or third, where `winIndex + 1 % 3` reads past the group |
| Wins.CountPureDoubles | scripts/Evaluator.ts:220-237 | the nested loop counts the later sequences that cover earlier ones |
| Wins.CoverCountZero | scripts/Evaluator.ts:220-237 | the count is zero exactly when no later sequence covers an earlier one |
| Wins.ScanHonorGroups | scripts/Evaluator.ts:240-257 | the `reduce` pushes the per-group yakuhai and counts dragon and wind groups |
| Wins.HonorCountsPartition | scripts/Evaluator.ts:242-257 | every honor group is counted once, as a dragon group or as a wind group |
| Wins.HonorWinsKeys | scripts/Evaluator.ts:242-257 | the per-group honor wins are only Yakuhai Dragons, Prevalent Wind and Seat Wind |
| Wins.BigFourWindsNeverAwarded | scripts/Evaluator.ts:240-263 | Big Four Winds is never awarded: it needs 34 wind groups in a five-group hand |
| Wins.ScanYakuhai | scripts/Evaluator.ts:240-263 | the yakuhai block pushes its wins in the source's order |
| Wins.ScanTriples | scripts/Evaluator.ts:265-379 | the three nested loops with their `break` push what the triple scan pushes |
| Wins.TripleScanKeys | scripts/Evaluator.ts:265-379 | the sequence scan pushes only Mixed Triple Sequence and Pure Straight, and the triplet scan only Triple Triplets |
| Wins.ScanSequences | scripts/Evaluator.ts:266-295 | the runs block's loops push the wins that block's rules give |
| Wins.LowestRankFloor | scripts/Evaluator.ts:362 | a group whose ranks are all at least the start value reduces to the start value |
| Wins.TripleTripletsNeverAwarded | scripts/Evaluator.ts:359-379 | when no rank is NaN, Triple Triplets is never awarded: every lowest rank is reduced from One, so every value is One |
| Wins.ScanTriplets | scripts/Evaluator.ts:327-379 | the all-triplets, concealed-triplets, kans and triple-triplets blocks push their wins in order |
| Wins.NineGatesRemaining | scripts/Evaluator.ts:398-405 | the `forEach` with `indexOf` and `splice` leaves the template with the first copy of each closed tile's rank removed |
| Wins.RanksLeftIsDifference | scripts/Evaluator.ts:398-405 | the splice loop leaves exactly the multiset difference of the template and the closed ranks |
| Wins.TrueNineGatesIffAllRanks | scripts/Evaluator.ts:398-409 | the splice loop leaves nothing, which is the test for True Nine Gates, exactly when the closed ranks include all of 1112345678999 |
| Wins.ScanColours | scripts/Evaluator.ts:382-417 | the all-green, half-flush and full-flush/nine-gates blocks push their wins |
| Wins.CollectWins | scripts/Evaluator.ts:152-417 | the whole collection answers the win list in the order the source pushes, or its first error |
| Wins.AddDora | scripts/Evaluator.ts:429-437 | the two `forEach` loops append one Dora Indicator per indicator and matching tile |
| Wins.DoraMatchesAreOccurrences | scripts/Evaluator.ts:429-437 | below the back rank, an indicator counts the tiles of its suit at the next rank, with Nine wrapping to One |
| Wins.BackIndicatorCountsNothing | scripts/Evaluator.ts:429-437 | a back shown as an indicator makes nothing dora |
| Wins.DoraCountBound | scripts/Evaluator.ts:429-437 | the dora count is at most the number of indicators times the number of tiles |
| Wins.OpeningFitsHand | scripts/Evaluator.ts:128-194 | given the argument checks, the opening wins never include a closed-only win for an open hand, nor All Triplets for a closed one |
| Wins.WinsFitHand | scripts/Evaluator.ts:152-417 | the collected list never holds All Triplets for a closed hand or a closed-only win for an open one |
| Scoring.Round100 | scripts/Evaluator.ts:600 | the least multiple of 100 that is not below the input |
| Scoring.Round100Least | scripts/Evaluator.ts:600 | no multiple of 100 at or above the input is below the rounded value |
| Scoring.RoundUpTen | scripts/Evaluator.ts:584 | the least multiple of 10 that is not below the input |
| Scoring.SumHan | scripts/Evaluator.ts:455-465 | the `reduce` sums han and throws at the first win without han for the hand's closedness |
| Scoring.HanSumFailureSticks | scripts/Evaluator.ts:455-465 | once a prefix has thrown, the whole sum throws the same error |
| Scoring.HanSumSucceeds | scripts/Evaluator.ts:455-465 | untiered wins that suit the hand's closedness never make the sum throw, and give at least one han each |
| Scoring.LimitBase | scripts/Evaluator.ts:467-477 | the base for five han and more lies between 2000 and 8000 |
| Scoring.LimitBaseMonotone | scripts/Evaluator.ts:467-477 | more han never lowers the limit base |
| Scoring.GroupFu | scripts/Evaluator.ts:504-537 | one group adds 0, 2, 4, 8, 16 or 32 fu |
| Scoring.SumGroupsFu | scripts/Evaluator.ts:504-537 | the loop over all groups adds each group's fu |
| Scoring.FirstPair | scripts/Evaluator.ts:542 | `find` answers the first two-tile closed group, or none when no such group exists |
| Scoring.ScanSingleWait | scripts/Evaluator.ts:544-563 | the single-wait loop answers its verdict or the read past the group |
| Scoring.WaitScanThrows | scripts/Evaluator.ts:549-560 | the loop throws only on a sequence holding the winning tile last, or first with the next tile not one rank below it |
| Scoring.IndexOfWin | scripts/Evaluator.ts:498 | `findIndex` answers the first position of the win, or none when it is absent |
| Scoring.CountFu | scripts/Evaluator.ts:482-585 | the fu count is 25 for seven pairs, otherwise the rounded sum, or its error |
| Scoring.FuShape | scripts/Evaluator.ts:482-585 | fu is 25 for seven pairs; otherwise a multiple of ten of at least 20, and at least 30 for a closed ron or any open hand |
| Scoring.FuErrors | scripts/Evaluator.ts:538-585 | the fu count throws only when no closed group is a pair, or on the single-wait read past a group |
| Scoring.BaseWinnings | scripts/Evaluator.ts:439-595 | the tiers, the han table and the clamped fu formula answer the base winnings |
| Scoring.BaseTiers | scripts/Evaluator.ts:439-595 | a Double yaakuman makes the base 16000 and nothing else does; a Single makes it 8000 when there is no Double; the base never exceeds 16000; under five han it is at most 2000 |
| Scoring.PaymentsCoverBase | scripts/Evaluator.ts:597-621 | every payment covers its multiple of the base, and a tsumo total never exceeds what the other three players pay |
| Scoring.Evaluation | scripts/Evaluator.ts:152-631 | after the grouping, the wins, dora, base and payment are computed as the source does |
| Scoring.Hand.constructor | scripts/Evaluator.ts:11-15 | the hand keeps the given open groups and closed tiles |
| Scoring.Hand.AddGroup | scripts/Evaluator.ts:22-25 | appends one open group and leaves the closed tiles alone |
| Scoring.Hand.AddClosedTile | scripts/Evaluator.ts:27-30 | appends one closed tile and leaves the open groups alone |
| Scoring.Hand.ScoreHand | scripts/Evaluator.ts:118-631 | `scoreHand` answers the score or the first error, checks in the source's order |
| Scoring.ScoredArguments | scripts/Evaluator.ts:128-141 | a scored hand passed every argument check: riichi only on a closed hand, double riichi and ippatsu only with riichi, both winds wind ranks |
| Scoring.ScoredTable | scripts/Evaluator.ts:143-145 | a scored hand passed validation and grouping, and its score is the evaluation of those groups |
| Scoring.ScoredHandShape | scripts/Evaluator.ts:143-147 | a scored hand has 14 tiles counting the winning tile and three per open group; its groups are the open groups followed by a partition of the closed tiles and the winning tile |
| Scoring.NoWinNoPay | scripts/Evaluator.ts:419-428 | nothing is paid exactly when no win was found, and then the winnings are 0 |
| Scoring.SevenPairsAreClosed | scripts/Evaluator.ts:143-188 | seven pairs come only from a hand with no open group |
| Scoring.WinsErrors | scripts/Evaluator.ts:197-237 | the win list throws only the Pinfu read past the group or more than two pure doubles |
| Scoring.MissingHanNeverThrown | scripts/Evaluator.ts:455-465 | the "win without closed_han/open_han" errors are unreachable |
| Scoring.EvaluateNeverMissesHan | scripts/Evaluator.ts:455-465 | the same, for an evaluation whose arguments passed the checks |
| Scoring.BaseNeverMissesHan | scripts/Evaluator.ts:455-465 | wins that suit the hand, with any number of dora, never make the han sum throw |
| ClassNames.Split | scripts/utils/ClassNameDefaults.tsx:21 | `split(" ")` gives at least one piece, and no piece holds a space |
| ClassNames.SplitJoin | scripts/utils/ClassNameDefaults.tsx:21-50 | splitting the join of space-free tokens gives the tokens back |
| ClassNames.JoinSplit | scripts/utils/ClassNameDefaults.tsx:21-50 | joining the pieces of a split gives the string back |
| ClassNames.PassedByMeans | scripts/utils/ClassNameDefaults.tsx:31-40 | a default's flag is set iff some caller class passes its prefix test |
| ClassNames.MarkCovered | scripts/utils/ClassNameDefaults.tsx:33-39 | the inner loop sets the flag of every default whose test the caller class passes, and changes no other flag |
| ClassNames.ApplyDefaultsLoop | scripts/utils/ClassNameDefaults.tsx:19-51 | the flags loop and the push loop give the caller's classes followed by the values of the defaults no caller class covers, joined by spaces |
| ClassNames.AppendedEntries | scripts/utils/ClassNameDefaults.tsx:23-48 | a default's value is appended iff no caller class passes its test, once, in entry order |
| ClassNames.CallerClassesLead | scripts/utils/ClassNameDefaults.tsx:21-50 | whatever the default values hold, the result splits into the caller's classes first, unchanged and in their order |
| ClassNames.CallerClassesFirst | scripts/utils/ClassNameDefaults.tsx:21-50 | when no default value holds a space and at least one class results, the result splits back into exactly the caller's classes followed by the appended values |
| ClassNames.NoClassNameAppendsAll | scripts/utils/ClassNameDefaults.tsx:21-48 | without a class string every default value is appended, in entry order |
| ClassNames.EmptyClassNameLeadsWithSpace | scripts/utils/ClassNameDefaults.tsx:21-50 | an empty class string is one empty class, so the result starts with a space when a default is appended |
| ClassNames.ApplyDefaultsIdempotent | scripts/utils/ClassNameDefaults.tsx:19-51 | when each default value is one space-free class passing its own test, applying the defaults again changes nothing |
| ClassNames.NothingMoreAppended | scripts/utils/ClassNameDefaults.tsx:31-48 | once the defaults are in, every default is covered and nothing more is appended |

## Left out

- Message texts, `console.log`, `title`, `winTitle`, the fu `titles` and the `payOrder` sentence are not modelled. The payment is a datatype of integer amounts, and each error is a kind in a datatype.
- `stringify`, `stringifyArray`, `stringifyGroups`, `shortStringify`, `fromBuilder` and the empty `Evaluator` class are not modelled, because they only format text or wrap the constructor. The commented-out `isValid` is not modelled either.
- The free-text `desc` of each catalog entry is dropped.
- The Red Five win is in the table, but `scoreHand` never pushes it, so the model never does either.
- Hand.ScoreHand: the ten positional arguments of `scoreHand` are bundled in one `ScoreArgs` value.
- HandGrouper.CreateClosedGroups: works on a sequence value, not an array. What is left in the argument after a throw is returned but not specified. `scoreHand` passes a fresh copy, so the caller's hand is never affected.
- Tile arrays are values here, so JavaScript aliasing is not modelled. The `Hand` constructor and `AddGroup` keep references to the caller's arrays, and a later change by the caller would be visible. Both constructor arguments default to `[]` in the source. The model's `Hand` constructor takes them explicitly, and passing `[]` gives that default.
- Ranks are the integers 0 to 17. A `NaN` suit or rank is a named value, not the floating-point NaN. A rank computed past `Back` by `getCyclicNext` is the integer 18.
- ClassNames.CallerClassesFirst: the exact round trip back to the class list holds only when no default value holds a space and at least one class results. An undefined class string with no defaults gives `""`, which splits into one empty class. A value such as `" pointer-events-none hidden"` splits into several classes, one of them empty. ClassNames.CallerClassesLead states the caller-first part for every value.
- ClassNames.ApplyDefaultsIdempotent: stated only when every default value is one space-free class that passes its own test. Outside that condition the source is not idempotent.
- The defaults object is a list of key and value entries in `Object.entries` order. An entry whose value is `undefined`, and keys outside the eight known options, are not modelled.
