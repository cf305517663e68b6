# Balatro scoring and recommendation engine, modelled in Dafny

This project models the scoring and play-selection engine of a Balatro-style
poker game (src/scoring-engine.js and src/recommendation-engine.js).

- **Scoring.** A card contributes chips, mult and an xmult factor according to
  its rank, enhancement and edition. The first five cards of a play are
  classified into one of twelve hand types by a strict first-match precedence.
  The score is the hand type's level-scaled base chips and mult, plus the
  cards' chips and mult, times the product of the xmult factors, rounded down.
- **Search.** `findBestPlay` enumerates every five-card combination of a larger
  hand by backtracking. It keeps the first combination whose score is strictly
  greater than the best so far, and proposes the remaining cards for discard.
- **Recommendation.** On top of the search, the advisor decides between playing
  and discarding, rates the urgency of a situation, ranks all plays, proposes a
  keep/discard split of the hand, and picks a joker to buy in the shop.

Files and modules:

| file | module | contents |
|---|---|---|
| wrappers.dfy | Wrappers | `Option` and `Result` |
| cards.dfy | Cards | ranks, suits, modifiers; a card's chips, mult and xmult |
| hand_types.dfy | HandTypes | the twelve hand types, the base table, level tables |
| classifier.dfy | Classifier | `Classify` and the imperative `IdentifyHandType` / `CheckStraight` proved equal to it |
| classifier_properties.dfy | ClassifierProperties | the straight test, precedence and count lemmas |
| combinations.dfy | Combinations | the combination enumeration `Choose` and the backtracking class proved to emit it |
| scoring.dfy | Scoring | `Score`, `BestPlayOf` and the `ScoringEngine` class with its loops |
| scoring_properties.dfy | ScoringProperties | positivity, level monotonicity, the test-hand scores, best-play lemmas |
| sorting.dfy | Sorting | the stable descending sort the advisor relies on |
| recommendation.dfy | Recommendation | the advisor's specification functions and the `RecommendationEngine` class |
| recommendation_properties.dfy | RecommendationProperties | decision tables, ordering and partition lemmas of the advisor |

Modelling choices:

- A card is a datatype. A hand is a `seq<Card>`, and a combination is a strictly
  increasing sequence of positions in the hand. Cards are therefore told apart by
  position, as the source's reference comparison tells them apart by identity.
- xmult factors are `real`. They are always 1, 1.5, 2, 2.25 or 3, so the model is
  exact. The final score is `Floor` of the real product.
- The engines are classes. `ScoringEngine.handLevels` is a `map<HandType, int>`
  field updated in place by `SetHandLevel`. `RecommendationEngine` owns a
  `ScoringEngine`.
- Every explicit loop of the source (`for`, `while`, `forEach`) is a method with loop invariants, proved equal to a
  specification function. Examples are the tallies of `identifyHandType`, the
  window scan of `checkStraight`, the three accumulation loops of
  `calculateScore`, the best-so-far loop of `findBestPlay`, the backtracking of
  `getCombinations`, and the push, tally, deal and top-up loops of the advisor.
  Iterations through library calls (`filter`/`includes`, `map`, `sort`) are
  functions: `Complement`, `SortDesc` and `ShopPick`.
- A result field that the source leaves `undefined` is an `Option`. There are
  two such cases:
  - `findBestPlay` on five cards or fewer has no card lists;
  - `findBestPlay` has no score when no combination scores above zero.
- `recommendPlay` reads `cardsToDiscard.length` when the target is missed and
  discards remain. On a hand of five cards or fewer that list is `undefined`, and
  the source throws a `TypeError`. The model returns `Failure(NoDiscardList)`
  there.
- Reasoning strings are tags (`Reason`, `DiscardReason`) carrying the numbers the
  texts show.

## Model

| member | source | states |
|---|---|---|
| Cards.RankChips | src/scoring-engine.js:7-10 | numerals score their face value, J/Q/K 10, only the Ace 11; always 2..11 |
| Cards.CardChips | src/scoring-engine.js:37-45 | a card's chips are its rank chips plus at most 100 (Bonus 30, Stone 50, Foil 50) |
| Cards.CardMult | src/scoring-engine.js:47-54 | a card's mult is 0, 4, 10 or 14 (Mult +4, Holographic +10) |
| Cards.CardXMult | src/scoring-engine.js:56-64 | a card's xmult is 1, 1.5, 2, 2.25 or 3, never below 1 |
| Cards.ReservedModifiersNeutral | src/scoring-engine.js:29-64 | seals and the Wild, Gold and Lucky enhancements change neither chips, mult nor xmult |
| Cards.StoneKeepsRankChips | src/scoring-engine.js:37-45 | a Stone card still counts its rank chips, plus 50, plus 50 more if Foil |
| Cards.PlainIsNeutral | src/scoring-engine.js:37-64 | an unmodified card adds its rank chips, no mult and xmult 1 |
| HandTypes.BaseHand | src/scoring-engine.js:13-26 | every base row has at least 5 chips and 1 mult, and positive per-level increments |
| HandTypes.DefaultLevels | src/scoring-engine.js:75-90 | a new table has every one of the twelve hand types at level 1 |
| HandTypes.BaseStrictlyIncreasing | src/scoring-engine.js:13-26 | a higher level gives strictly more base chips and base mult, for every hand type |
| HandTypes.BaseAtValidLevel | src/scoring-engine.js:172-174 | at level 1 or more the base values are at least the level-1 values |
| Classifier.StraightIndex | src/scoring-engine.js:140 | the straight order has 13 positions, and the Ace is at 0 only |
| Classifier.Played | src/scoring-engine.js:97-98 | the classifier looks at the first five cards, and at all of a hand of five or fewer |
| Classifier.TopTwoIsSortedHead | src/scoring-engine.js:109 | the two leading counts are the first two of the rank counts sorted in descending order |
| Classifier.AscendListsInOrder | src/scoring-engine.js:141-143 | the sorted unique ranks list each present position once, ascending |
| Classifier.SortedUniqueRanks | src/scoring-engine.js:141-143 | deduplicating and sorting the ranks yields exactly the ascending listing of their positions |
| Classifier.ScanWindows | src/scoring-engine.js:148-161 | the window loop, with its `break` and early `return`, finds a run exactly when some window of five steps up by one |
| Classifier.CheckStraight | src/scoring-engine.js:139-162 | `checkStraight` returns exactly the straight test `StraightRanks` |
| Classifier.CountRanks | src/scoring-engine.js:104-107 | the rank tally of every rank is its number of occurrences |
| Classifier.CountSuits | src/scoring-engine.js:113-116 | the suit tally of every suit is its number of occurrences |
| Classifier.LeadingCounts | src/scoring-engine.js:109 | `counts[0]` and `counts[1]` are the two largest rank counts, a missing second one read as 0 |
| Classifier.IdentifyHandType | src/scoring-engine.js:96-137 | `identifyHandType` returns exactly the hand type of the precedence chain `Classify` |
| ClassifierProperties.StraightIffRun | src/scoring-engine.js:139-162 | a straight exactly when five consecutive straight positions are all present |
| ClassifierProperties.AceLowIsStraight | src/scoring-engine.js:140-161 | A-2-3-4-5 is a straight |
| ClassifierProperties.AceHighIsNotStraight | src/scoring-engine.js:140-161 | ranks from 10, J, Q, K and A alone, 10-J-Q-K-A included, are never a straight, because the Ace is only the lowest rank |
| ClassifierProperties.StraightHasFiveRanks | src/scoring-engine.js:145 | a straight needs five distinct ranks |
| ClassifierProperties.ClassifyLooksAtFirstFive | src/scoring-engine.js:97-98 | an empty play is High Card, and cards after the fifth never change the hand type |
| ClassifierProperties.StraightFlushWins | src/scoring-engine.js:122-127 | a flush that is also a straight is a Straight Flush, never Flush or Straight alone |
| ClassifierProperties.ShortHandTypes | src/scoring-engine.js:118-136 | fewer than five cards are never a flush or a straight, nor any five-card hand type |
| ClassifierProperties.PairMeansOnePair | src/scoring-engine.js:133-134 | a Pair has one rank twice and every other rank at most once |
| ClassifierProperties.TwoPairMeansTwoPairs | src/scoring-engine.js:133 | Two Pair has two different ranks twice each and no rank more often |
| ClassifierProperties.HouseMeansThreeAndTwo | src/scoring-engine.js:124-129 | Full House and Flush House have one rank three times and another twice |
| ClassifierProperties.FiveMeansOneRank | src/scoring-engine.js:122-123 | Five of a Kind and Flush Five need five cards of one rank |
| ClassifierProperties.DecideCounts | src/scoring-engine.js:122-134 | the precedence chain reads Pair, Two Pair, the houses and the fives off the two leading counts |
| Combinations.ChooseShape | src/scoring-engine.js:243-261 | every emitted list is k strictly increasing positions inside the hand |
| Combinations.ChooseComplete | src/scoring-engine.js:243-261 | every combination of k positions is emitted |
| Combinations.ChooseCount | src/scoring-engine.js:243-261 | exactly C(n, k) lists are emitted |
| Combinations.ChooseLexOrdered | src/scoring-engine.js:246-257 | the lists come in strictly increasing lexicographic order |
| Combinations.ChooseDistinct | src/scoring-engine.js:246-257 | no list is emitted twice |
| Combinations.ChooseEmptyWhenTooMany | src/scoring-engine.js:243-261 | asking for more positions than the hand has yields no list |
| Combinations.EightChooseFive | src/scoring-engine.js:224-225 | an eight-card hand has 56 five-card plays |
| Combinations.Backtracker.Backtrack | src/scoring-engine.js:246-257 | the recursive step appends, after the emitted lists, every completion of the current buffer, and restores the buffer |
| Combinations.GetCombinations | src/scoring-engine.js:243-261 | `getCombinations` returns exactly the enumeration `Choose` |
| Scoring.SumChips | src/scoring-engine.js:177-180 | every card adds at least two chips |
| Scoring.ProdXMult | src/scoring-engine.js:189-192 | the product of xmult factors is never below 1 |
| Scoring.AddChips | src/scoring-engine.js:177-180 | the chip loop adds every card's chips, not only the classified five |
| Scoring.AddMult | src/scoring-engine.js:183-186 | the mult loop adds every card's mult |
| Scoring.MultiplyXMult | src/scoring-engine.js:189-192 | the xmult loop multiplies every card's factor, starting from 1 |
| Scoring.ScoringEngine.constructor | src/scoring-engine.js:75-90 | a new engine has every hand type at level 1 |
| Scoring.ScoringEngine.SetHandLevel | src/scoring-engine.js:92-94 | only the given hand type's level changes, to any value |
| Scoring.ScoringEngine.CalculateScore | src/scoring-engine.js:164-212 | `calculateScore` returns exactly `Score`: 0 and High Card for no cards, else the classified type's breakdown and its floored product |
| Scoring.ScoringEngine.FindBestPlay | src/scoring-engine.js:215-241 | `findBestPlay` returns exactly `BestPlayOf`: the whole hand scored when it has five cards or fewer, else the first strictly best combination and its complement |
| ScoringProperties.ScorePositive | src/scoring-engine.js:164-197 | with every level at least 1, a non-empty play scores at least its chips times mult, which is at least 5; an empty one scores 0 as High Card |
| ScoringProperties.FinalScoreAtLeast | src/scoring-engine.js:197 | the xmult never pushes the score below chips times mult |
| ScoringProperties.LevelUpRaisesScore | src/scoring-engine.js:169-174 | raising the level of the play's own hand type strictly raises its score |
| ScoringProperties.OtherLevelsIrrelevant | src/scoring-engine.js:168-169 | the level of any other hand type leaves the score unchanged |
| ScoringProperties.PairAtLevelOne | src/scoring-engine.js:164-197 | a level-1 Pair scores its cards plus 10 chips and 2 mult |
| ScoringProperties.FlushAtLevelOne | src/scoring-engine.js:164-197 | a level-1 Flush scores its cards plus 35 chips and 4 mult |
| ScoringProperties.PairOfKingsScores84 | src/verify-install.js:73-81 | K♠ K♥ 7♦ 3♣ 2♠ is a Pair scoring 84 with breakdown 42 × 2 × 1 |
| ScoringProperties.GlassHandScores744 | src/scoring-engine.js:303-310 | A♠[Glass] A♥[Mult] K♦ Q♣ J♠ is a Pair scoring 62 × 6 × 2 = 744 |
| ScoringProperties.PlainAcesScore124 | src/scoring-engine.js:303-310 | the same hand without modifiers scores 62 × 2 = 124 |
| ScoringProperties.RoyalSpadesScore344 | src/scoring-engine.js:317-327 | A♠ K♠ Q♠ J♠ 10♠ is a Flush, not a Straight Flush, scoring 86 × 4 = 344 |
| ScoringProperties.LeaderIsFirstMaximum | src/scoring-engine.js:220-234 | the scan's leader is the first position of the highest score, when that score is positive; otherwise no score is positive |
| ScoringProperties.ComplementMembers | src/scoring-engine.js:239 | the discard list holds exactly the positions not recommended, in hand order |
| ScoringProperties.SelectionAndComplement | src/scoring-engine.js:236-240 | recommended and discarded cards together are a rearrangement of the hand |
| ScoringProperties.BestPlayDominates | src/scoring-engine.js:215-241 | no five-card combination scores more than the best play |
| ScoringProperties.BestPlayIsFirstMaximum | src/scoring-engine.js:227-234 | the recommended cards are an enumerated combination, scoring above 0, before which every combination scores less |
| ScoringProperties.BestPlayPartitionsHand | src/scoring-engine.js:236-240 | for more than five cards, recommended plus discarded is a rearrangement of the hand |
| ScoringProperties.BestPlayExistsAtValidLevels | src/scoring-engine.js:215-241 | with every level at least 1, a hand of more than five cards always yields a scored best play of five cards |
| Sorting.FirstTopIsFirstMaximum | src/recommendation-engine.js:79 | the first position of the largest key has the largest key, and every earlier key is smaller |
| Sorting.SortDescPermutes | src/recommendation-engine.js:79 | sorting rearranges the elements, adding and losing none |
| Sorting.SortDescOrders | src/recommendation-engine.js:79 | the sorted list is descending by key and starts with the first element of the largest key (stability) |
| Recommendation.Overwrite | src/recommendation-engine.js:14-18 | the table after `setHandLevels` has the old hand types plus every named one |
| Recommendation.RecommendationEngine.constructor | src/recommendation-engine.js:9-11 | a new advisor owns a new scoring engine at level 1 everywhere |
| Recommendation.RecommendationEngine.SetHandLevels | src/recommendation-engine.js:14-18 | the levels become the old table overwritten entry by entry, in order |
| RecommendationProperties.OverwriteLeavesOthers | src/recommendation-engine.js:14-18 | a hand type no entry names keeps its level |
| RecommendationProperties.OverwriteLastWins | src/recommendation-engine.js:14-18 | a named hand type takes the level of the last entry naming it |
| Recommendation.RecommendationEngine.RecommendPlay | src/recommendation-engine.js:21-57 | `recommendPlay` returns exactly `Advise` of the engine's best play |
| RecommendationProperties.AdviseTable | src/recommendation-engine.js:24-54 | meetsTarget exactly when the score reaches the target; DISCARD exactly when it misses with discards left; confidence HIGH, MEDIUM on DISCARD, LOW on the last hand; 3 reasons on DISCARD and 2 otherwise; the search's cards, hand type, score and discard list copied unchanged |
| RecommendationProperties.AdviseFailsOnlyWithoutDiscardList | src/recommendation-engine.js:43-46 | the advice fails exactly when it misses the target, discards remain and the search gave no discard list |
| RecommendationProperties.AdviseOnLargeHands | src/recommendation-engine.js:43-47 | on more than five cards the advice never fails, and a discard suggestion counts the n−5 unplayed cards (all n when nothing scored) |
| RecommendationProperties.BestPlayDiscardSize | src/scoring-engine.js:236-240 | the best play of more than five cards proposes n−5 discards, or all n when nothing scored |
| RecommendationProperties.AdviseOnSmallHands | src/recommendation-engine.js:43-46 | on five cards or fewer the advice fails exactly when the whole hand misses the target with discards left |
| RecommendationProperties.UrgencyTable | src/recommendation-engine.js:233-238 | `UrgencyOf`, the model of `calculateUrgency`, gives LOW exactly when the target is met; CRITICAL exactly when missed on the last hand; HIGH exactly when otherwise twice the expected score is below the target; MEDIUM in the remaining cases, including no expected score |
| RecommendationProperties.AdviceUrgency | src/recommendation-engine.js:227-238 | the urgency of a play advice is LOW exactly when it meets the target, and CRITICAL when it misses on the last hand |
| Recommendation.RecommendationEngine.ScoreEach | src/recommendation-engine.js:68-76 | the loop pushes one entry per combination, in enumeration order |
| Recommendation.RecommendationEngine.AnalyzeAllPlays | src/recommendation-engine.js:60-91 | `analyzeAllPlays` returns exactly `AllPlays` |
| RecommendationProperties.UnsortedEntries | src/recommendation-engine.js:68-76 | entry j reports combination j with its score and hand type |
| RecommendationProperties.AllPlaysCount | src/recommendation-engine.js:60-91 | C(n, 5) entries for more than five cards, one entry otherwise |
| RecommendationProperties.AllPlaysSorted | src/recommendation-engine.js:78-79 | the entries are in non-increasing score order and are a rearrangement of the scored combinations |
| RecommendationProperties.AllPlaysLeadIsBestPlay | src/recommendation-engine.js:60-91 | the first entry is `findBestPlay`'s play with its score; when the search found none, no entry scores above 0 |
| RecommendationProperties.LeaderIsFirstTop | src/scoring-engine.js:227-234 | the best-so-far scan and the stable sort pick the same entry |
| Recommendation.TallyHand | src/recommendation-engine.js:111-117 | the rank and suit tallies are the numbers of occurrences in the whole hand |
| Recommendation.Deal | src/recommendation-engine.js:120-133 | the deal loop produces exactly `Split` of the hand |
| Recommendation.FillKeep | src/recommendation-engine.js:135-139 | the top-up loop produces exactly `TopUp` of the two lists |
| Recommendation.RecommendationEngine.RecommendDiscard | src/recommendation-engine.js:94-146 | `recommendDiscard` returns exactly `DiscardOf` |
| RecommendationProperties.SplitMembers | src/recommendation-engine.js:124-133 | a card is kept exactly when its rank occurs twice or more or its suit three times or more; every other card is discarded |
| RecommendationProperties.SplitInOrder | src/recommendation-engine.js:124-133 | both lists keep hand order |
| RecommendationProperties.SplitPartitions | src/recommendation-engine.js:120-133 | keep plus discard is a rearrangement of the hand |
| RecommendationProperties.TopUpStops | src/recommendation-engine.js:136-139 | afterwards at least three cards are kept or nothing is left to discard, and exactly min(3, total) are kept when the loop ran |
| RecommendationProperties.TopUpPermutes | src/recommendation-engine.js:136-139 | the top-up loses and adds no card |
| RecommendationProperties.TopUpMovesFromEnd | src/recommendation-engine.js:136-139 | the discard list only loses its last cards, and the keep list gains them, latest first |
| RecommendationProperties.DiscardOfStrongHand | src/recommendation-engine.js:99-108 | the best play's lists are copied exactly when it scores above 100; otherwise the reason counts the discards |
| RecommendationProperties.DiscardOfPartitions | src/recommendation-engine.js:94-146 | whenever both lists are present they are a rearrangement of the hand; they are absent only for a strong hand of five cards or fewer |
| RecommendationProperties.DiscardOfKeepsPromising | src/recommendation-engine.js:119-139 | with at most 100 points, or no score, every card with a repeated rank or a suit held three times is kept, and at least min(3, n) cards are kept |
| RecommendationProperties.PriorityBounds | src/recommendation-engine.js:151-176 | `Priority`, the table lookup that falls back to 5, puts every joker's priority between 5 and 10, and gives 5 for a name not in the table |
| RecommendationProperties.AppraiseBuysWhenAffordable | src/recommendation-engine.js:175-185 | an offer is BUY exactly when affordable, and affordable exactly when its cost is within the money |
| RecommendationProperties.ShopPicksFirstBest | src/recommendation-engine.js:149-192 | for `ShopPick` and `RecommendShopPurchase` (which uses the source's table), the models of `recommendShopPurchase`: with jokers on offer the pick is the appraisal of the first joker of the highest priority; with none it is the SKIP fallback |

## Left out

- Joker effects: the `jokers` argument of `calculateScore` is never read by the source. It is not a parameter of the model.
- The `targetHandType` argument of `recommendDiscard` and the `currentJokers` argument of `recommendShopPurchase` are not read, except to choose reason texts, and are not parameters.
- Reason texts are not modelled as strings: `getJokerReasoning`, the text of `recommendPlay` and `recommendDiscard`, and the fallback text of `recommendShopPurchase`. `recommendPlay` and `recommendDiscard` keep tags carrying the numbers of their texts. Shop offers carry no reason.
- Presentation is not modelled: `formatRecommendation`, `Card.toString`, and the `calculation` text with `toFixed(2)` in the breakdown.
- `generateReport` reads the wall clock. Only its call to `calculateUrgency` is modelled, by `AdviceUrgency`.
- src/main.js (screen capture, image processing, files, timers), src/demo.js (console menu, random hands) and the environment checks of src/verify-install.js are I/O. Only the 84-point anchor is taken from src/verify-install.js.
- `setHandLevels` takes a list of (hand type, level) pairs in key order. A key that names no hand type would add an unused entry to the source's table. Such keys are not representable here.
- The level reported beside the breakdown is part of `Breakdown`. An empty play's breakdown `{}` is `None`.
- A card object appearing twice in the same hand is not modelled. Positions stand for identities.
- Floating point is not modelled. xmult products are exact reals. This agrees with the source only while `totalChips * totalMult * totalXMult` is exactly representable as a double, that is, below 2^53. Very large levels, or more than about 33 ×1.5/×3 factors in one play, break that bound, and there the source rounds where the model does not.
- Recommendation.Priority and RecommendationProperties.PriorityBounds: joker names are plain strings looked up in a finite map, so a name missing from the table gets 5. The source's table is an object literal, and a lookup there also finds members inherited from `Object.prototype`. For the names `constructor`, `toString`, `valueOf`, `hasOwnProperty` or `__proto__`, the source's priority is a function or an object rather than 5. The comparator `b.priority - a.priority` then yields NaN, and the order of the offers is left to the engine. The model does not capture those names.
- RecommendationProperties.AllPlaysLeadIsBestPlay: only the first entry of the sorted list is tied to the best play. The relative order of the other equal-score entries is stable but no lemma states it.
- The best play of the eight-card test hand (src/scoring-engine.js:317-331) is not evaluated over its 56 combinations, because unfolding `Score` 56 times in one proof is beyond the solver budget the proofs are kept within. `RoyalSpadesScore344` scores its five spades.
