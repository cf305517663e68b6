/**
 * The advisor of src/recommendation-engine.js: `setHandLevels`,
 * `recommendPlay`, `analyzeAllPlays`, `recommendDiscard`,
 * `calculateUrgency` and the selection rule of `recommendShopPurchase`.
 *
 * Each operation's outcome is given by a specification function over the
 * engine's hand levels and the arguments; the RecommendationEngine class owns
 * a ScoringEngine and carries out the source's statement sequences and loops,
 * each proved equal to its specification. Cards are named by their position
 * in the hand, and the reasoning texts by tags that carry the numbers the
 * texts show.
 */
module Recommendation {
  import opened Wrappers
  import opened Cards
  import opened HandTypes
  import opened Classifier
  import opened Combinations
  import opened Scoring
  import opened ScoringProperties
  import opened Sorting

  // ---------------------------------------------------------------------
  // Hand levels
  // ---------------------------------------------------------------------

  /** The level table after `setHandLevel` is called for each entry in turn. */
  function Overwrite(levels: map<HandType, int>, entries: seq<(HandType, int)>): (r: map<HandType, int>)
    ensures r.Keys == levels.Keys + set i | 0 <= i < |entries| :: entries[i].0
  {
    if |entries| == 0 then levels
    else
      var last := entries[|entries| - 1];
      var init := entries[..|entries| - 1];
      var before := Overwrite(levels, init);
      assert forall i :: 0 <= i < |init| ==> init[i] == entries[i];
      before[last.0 := last.1]
  }

  // ---------------------------------------------------------------------
  // recommendPlay
  // ---------------------------------------------------------------------

  datatype Action = Play | Discard

  datatype Confidence = High | Medium | Low

  /** One line of `reasoning`, with the numbers its text shows. */
  datatype Reason =
    | Exceeds(reached: int, goal: int)          // the play reaches the target
    | PlayImmediately                           // keep the remaining hands for the next blind
    | ShortOf(expected: Option<int>, needed: int) // the play falls short by needed - expected
    | ConsiderDiscarding(cards: nat)            // how many cards a discard would replace
    | DiscardsRemaining(discards: int)
    | MoreHands(hands: int)                     // hands left after this one
    | LastHand

  /**
   * The record `recommendPlay` returns. `cards` and `cardsToDiscard` are
   * absent when the search returned a bare score (five cards or fewer);
   * `handType` and `expectedScore` are absent when no combination scored.
   */
  datatype PlayAdvice = PlayAdvice(action: Action, confidence: Confidence, cards: Option<seq<nat>>,
                                   handType: Option<HandType>, expectedScore: Option<int>,
                                   meetsTarget: bool, cardsToDiscard: Option<seq<nat>>,
                                   reasoning: seq<Reason>)

  /** The TypeError of reading `.length` of an absent discard list. */
  datatype PlayError = NoDiscardList

  /** The score of a best play, absent when the search found none. */
  function PlayScore(best: BestPlay): (s: Option<int>)
    ensures s.Some? <==> best.result.Some?
    ensures s.Some? ==> s.value == best.result.value.score
  {
    match best.result
    case Some(r) => Some(r.score)
    case None => None
  }

  /** The hand type of a best play, absent when the search found none. */
  function PlayHandType(best: BestPlay): (t: Option<HandType>)
    ensures t.Some? <==> best.result.Some?
    ensures t.Some? ==> t.value == best.result.value.handType
  {
    match best.result
    case Some(r) => Some(r.handType)
    case None => None
  }

  /**
   * `recommendPlay` on the search result `best`: play when the best score
   * reaches the target; otherwise discard while discards remain, else play
   * with HIGH confidence when more hands remain and LOW on the last one. An
   * absent score compares as false.
   */
  function Advise(best: BestPlay, target: int, hands: int, discards: int): Result<PlayAdvice, PlayError> {
    var score := PlayScore(best);
    var meets := score.Some? && score.value >= target;
    var advice := PlayAdvice(Play, High, best.recommended, PlayHandType(best), score, meets, best.discard, []);
    if meets then
      Success(advice.(reasoning := [Exceeds(score.value, target), PlayImmediately]))
    else if discards > 0 then
      if best.discard.None? then Failure(NoDiscardList)
      else Success(advice.(action := Discard, confidence := Medium,
                           reasoning := [ShortOf(score, target), ConsiderDiscarding(|best.discard.value|),
                                         DiscardsRemaining(discards)]))
    else if hands > 1 then
      Success(advice.(reasoning := [ShortOf(score, target), MoreHands(hands - 1)]))
    else
      Success(advice.(confidence := Low, reasoning := [ShortOf(score, target), LastHand]))
  }

  // ---------------------------------------------------------------------
  // calculateUrgency
  // ---------------------------------------------------------------------

  datatype Urgency = LowUrgency | MediumUrgency | HighUrgency | CriticalUrgency

  /**
   * `calculateUrgency`: met target, then last hand, then an expected score
   * under half the target (`targetScore * 0.5`, taken exactly), else MEDIUM.
   * An absent expected score compares as false.
   */
  function UrgencyOf(advice: PlayAdvice, handsRemaining: int, targetScore: int): Urgency {
    if advice.meetsTarget then LowUrgency
    else if handsRemaining <= 1 then CriticalUrgency
    else if advice.expectedScore.Some? && (advice.expectedScore.value as real) < (targetScore as real) * 0.5
    then HighUrgency
    else MediumUrgency
  }

  // ---------------------------------------------------------------------
  // analyzeAllPlays
  // ---------------------------------------------------------------------

  /** One entry of `analyzeAllPlays`. */
  datatype Analysis = Analysis(cards: seq<nat>, handType: HandType, score: int, breakdown: Option<Breakdown>)

  /** The entry for the cards at positions `cards`, scored as `r`. */
  function Analyzed(cards: seq<nat>, r: ScoreResult): Analysis {
    Analysis(cards, r.handType, r.score, r.breakdown)
  }

  /** The sort key of `analyzeAllPlays`. */
  function AnalysisScore(a: Analysis): int {
    a.score
  }

  /** The entries of the given combinations, in enumeration order. */
  function Unsorted(levels: map<HandType, int>, hand: seq<Card>, combos: seq<seq<nat>>): (r: seq<Analysis>)
    requires Complete(levels)
    requires forall c :: c in combos ==> InHand(c, |hand|)
    ensures |r| == |combos|
  {
    if |combos| == 0 then []
    else
      var last := combos[|combos| - 1];
      Unsorted(levels, hand, combos[..|combos| - 1]) + [Analyzed(last, Score(levels, Pick(hand, last)))]
  }

  /**
   * `analyzeAllPlays`: every five-card combination of a hand of more than
   * five cards, sorted by descending score; a smaller hand as one entry.
   */
  function AllPlays(levels: map<HandType, int>, hand: seq<Card>): seq<Analysis>
    requires Complete(levels)
  {
    if |hand| > 5 then SortDesc(Unsorted(levels, hand, Fives(|hand|)), AnalysisScore)
    else [Analyzed(Range(|hand|), Score(levels, hand))]
  }

  // ---------------------------------------------------------------------
  // recommendDiscard
  // ---------------------------------------------------------------------

  /** The two lists `recommendDiscard` builds. */
  datatype Piles = Piles(keep: seq<nat>, discard: seq<nat>)

  /** The reasoning of `recommendDiscard`. */
  datatype DiscardReason =
    | StrongHand(handType: HandType, score: int)  // the best play already scores above 100
    | PairsOrFlushes(discarding: nat)            // discard this many to chase pairs or a flush

  /** The record `recommendDiscard` returns; the lists are absent when copied from a bare score. */
  datatype DiscardAdvice = DiscardAdvice(cardsToDiscard: Option<seq<nat>>, reason: DiscardReason,
                                         keepCards: Option<seq<nat>>)

  /** A card is kept when its rank occurs at least twice in the hand, or else its suit three times. */
  predicate Promising(hand: seq<Card>, i: nat)
    requires i < |hand|
  {
    RankCount(hand, hand[i].rank) >= 2 || SuitCount(hand, hand[i].suit) >= 3
  }

  /** The first `n` positions of the hand, dealt to keep or discard in hand order. */
  function Split(hand: seq<Card>, n: nat): (p: Piles)
    requires n <= |hand|
    ensures |p.keep| + |p.discard| == n
  {
    if n == 0 then Piles([], [])
    else
      var p := Split(hand, n - 1);
      if Promising(hand, n - 1) then Piles(p.keep + [n - 1], p.discard)
      else Piles(p.keep, p.discard + [n - 1])
  }

  /** The top-up loop: move the last discard to the keep list until three are kept or none is left. */
  function TopUp(p: Piles): (q: Piles)
    decreases |p.discard|
  {
    if |p.keep| < 3 && |p.discard| > 0
    then TopUp(Piles(p.keep + [p.discard[|p.discard| - 1]], p.discard[..|p.discard| - 1]))
    else p
  }

  /**
   * `recommendDiscard`: above 100 points the best play's lists are copied
   * verbatim; otherwise the promising cards are kept and topped up to three.
   */
  function DiscardOf(levels: map<HandType, int>, hand: seq<Card>): DiscardAdvice
    requires Complete(levels)
  {
    var best := BestPlayOf(levels, hand);
    if best.result.Some? && best.result.value.score > 100 then
      DiscardAdvice(best.discard, StrongHand(best.result.value.handType, best.result.value.score), best.recommended)
    else
      var p := TopUp(Split(hand, |hand|));
      DiscardAdvice(Some(p.discard), PairsOrFlushes(|p.discard|), Some(p.keep))
  }

  /** The first pass of `recommendDiscard`: how often each rank and each suit occurs in the hand. */
  method TallyHand(hand: seq<Card>) returns (ranks: map<Rank, nat>, suits: map<Suit, nat>)
    ensures forall r :: Lookup(ranks, r) == RankCount(hand, r)
    ensures forall s :: Lookup(suits, s) == SuitCount(hand, s)
  {
    ranks, suits := map[], map[];
    var i := 0;
    while i < |hand|
      invariant 0 <= i <= |hand|
      invariant forall r :: Lookup(ranks, r) == RankCount(hand[..i], r)
      invariant forall s :: Lookup(suits, s) == SuitCount(hand[..i], s)
    {
      assert hand[..i + 1][..i] == hand[..i];
      ranks := ranks[hand[i].rank := Lookup(ranks, hand[i].rank) + 1];
      suits := suits[hand[i].suit := Lookup(suits, hand[i].suit) + 1];
      i := i + 1;
    }
    assert hand[..i] == hand;
  }

  /** The second pass: deal each card, in hand order, to keep or discard by the tallies. */
  method Deal(hand: seq<Card>, ranks: map<Rank, nat>, suits: map<Suit, nat>) returns (keep: seq<nat>, discard: seq<nat>)
    requires forall r :: Lookup(ranks, r) == RankCount(hand, r)
    requires forall s :: Lookup(suits, s) == SuitCount(hand, s)
    ensures Piles(keep, discard) == Split(hand, |hand|)
  {
    keep, discard := [], [];
    var j := 0;
    while j < |hand|
      invariant 0 <= j <= |hand|
      invariant Piles(keep, discard) == Split(hand, j)
    {
      if Lookup(ranks, hand[j].rank) >= 2 {
        keep := keep + [j];
      } else if Lookup(suits, hand[j].suit) >= 3 {
        keep := keep + [j];
      } else {
        discard := discard + [j];
      }
      j := j + 1;
    }
  }

  /** The third pass: move discards from the end of the list to the keep list until three are kept. */
  method FillKeep(keep0: seq<nat>, discard0: seq<nat>) returns (keep: seq<nat>, discard: seq<nat>)
    ensures Piles(keep, discard) == TopUp(Piles(keep0, discard0))
  {
    keep, discard := keep0, discard0;
    while |keep| < 3 && |discard| > 0
      invariant TopUp(Piles(keep, discard)) == TopUp(Piles(keep0, discard0))
      decreases |discard|
    {
      var card := discard[|discard| - 1];
      discard := discard[..|discard| - 1];
      keep := keep + [card];
    }
  }

  // ---------------------------------------------------------------------
  // recommendShopPurchase
  // ---------------------------------------------------------------------

  /** A joker on offer in the shop. */
  datatype Joker = Joker(name: string, cost: int)

  datatype Purchase = Buy | Skip

  /** The shop verdict: the chosen offer, or the fallback when nothing is offered. */
  datatype ShopAdvice =
    | Offer(joker: Joker, priority: int, affordable: bool, recommendation: Purchase)
    | NoGoodOption

  /** The source's priority table. */
  const ShopPriorities: map<string, int> :=
    map["Bull" := 9, "Egg" := 8, "Business Card" := 8,
        "Joker" := 7, "Greedy Joker" := 7, "Lusty Joker" := 7, "Wrathful Joker" := 7, "Gluttonous Joker" := 7,
        "Scary Face" := 8, "Smiley Face" := 8, "Ride the Bus" := 7,
        "Blueprint" := 10, "Brainstorm" := 10, "Baron" := 9]

  /** A joker's priority: its table entry, or 5 when it has none (or a falsy 0). */
  function Priority(table: map<string, int>, name: string): int {
    if name in table && table[name] != 0 then table[name] else 5
  }

  /** The verdict on one joker: BUY exactly when it is affordable. */
  function Appraise(table: map<string, int>, j: Joker, money: int): ShopAdvice {
    var affordable := j.cost <= money;
    Offer(j, Priority(table, j.name), affordable, if affordable then Buy else Skip)
  }

  /** The sort key of `recommendShopPurchase`. */
  function OfferPriority(a: ShopAdvice): int {
    if a.Offer? then a.priority else 0
  }

  /** `recommendShopPurchase`: appraise every joker, sort by descending priority, take the first. */
  function ShopPick(table: map<string, int>, jokers: seq<Joker>, money: int): ShopAdvice {
    var offers := seq(|jokers|, i requires 0 <= i < |jokers| => Appraise(table, jokers[i], money));
    var sorted := SortDesc(offers, OfferPriority);
    if |sorted| == 0 then NoGoodOption else sorted[0]
  }

  /** `recommendShopPurchase` with the source's own priority table. */
  function RecommendShopPurchase(jokers: seq<Joker>, money: int): ShopAdvice {
    ShopPick(ShopPriorities, jokers, money)
  }

  // ---------------------------------------------------------------------
  // The engine
  // ---------------------------------------------------------------------

  /** `RecommendationEngine`: an advisor around its own scoring engine. */
  class RecommendationEngine {
    const scoringEngine: ScoringEngine

    /** The scoring engine has a level for every hand type. */
    predicate Valid()
      reads this, scoringEngine
    {
      scoringEngine.Valid()
    }

    /** A new engine starts from a new scoring engine at level 1 everywhere. */
    constructor ()
      ensures Valid() && fresh(scoringEngine)
      ensures scoringEngine.handLevels == DefaultLevels()
    {
      scoringEngine := new ScoringEngine();
    }

    /** `setHandLevels`: `setHandLevel` for each entry, in key order. */
    method SetHandLevels(levels: seq<(HandType, int)>)
      requires Valid()
      modifies scoringEngine
      ensures Valid()
      ensures scoringEngine.handLevels == Overwrite(old(scoringEngine.handLevels), levels)
    {
      var i := 0;
      while i < |levels|
        invariant 0 <= i <= |levels|
        invariant Valid()
        invariant scoringEngine.handLevels == Overwrite(old(scoringEngine.handLevels), levels[..i])
      {
        assert levels[..i + 1][..i] == levels[..i];
        scoringEngine.SetHandLevel(levels[i].0, levels[i].1);
        i := i + 1;
      }
      assert levels[..i] == levels;
    }

    /** `recommendPlay`: build the PLAY record, then revise it by the score, the discards and the hands. */
    method RecommendPlay(hand: seq<Card>, targetScore: int, handsRemaining: int, discardsRemaining: int)
      returns (r: Result<PlayAdvice, PlayError>)
      requires Valid()
      ensures r == Advise(BestPlayOf(scoringEngine.handLevels, hand), targetScore, handsRemaining, discardsRemaining)
    {
      var bestPlay := scoringEngine.FindBestPlay(hand);
      var score := PlayScore(bestPlay);
      var meetsTarget := score.Some? && score.value >= targetScore;
      var action := Play;
      var confidence := High;
      var reasoning: seq<Reason> := [];
      if meetsTarget {
        reasoning := reasoning + [Exceeds(score.value, targetScore)];
        reasoning := reasoning + [PlayImmediately];
        assert reasoning == [Exceeds(score.value, targetScore), PlayImmediately];
      } else {
        reasoning := reasoning + [ShortOf(score, targetScore)];
        if discardsRemaining > 0 {
          action := Discard;
          confidence := Medium;
          if bestPlay.discard.None? {
            assert Advise(bestPlay, targetScore, handsRemaining, discardsRemaining) == Failure(NoDiscardList);
            return Failure(NoDiscardList);
          }
          reasoning := reasoning + [ConsiderDiscarding(|bestPlay.discard.value|)];
          reasoning := reasoning + [DiscardsRemaining(discardsRemaining)];
          assert reasoning == [ShortOf(score, targetScore), ConsiderDiscarding(|bestPlay.discard.value|),
                               DiscardsRemaining(discardsRemaining)];
        } else if handsRemaining > 1 {
          reasoning := reasoning + [MoreHands(handsRemaining - 1)];
          assert reasoning == [ShortOf(score, targetScore), MoreHands(handsRemaining - 1)];
        } else {
          reasoning := reasoning + [LastHand];
          confidence := Low;
          assert reasoning == [ShortOf(score, targetScore), LastHand];
        }
      }
      r := Success(PlayAdvice(action, confidence, bestPlay.recommended, PlayHandType(bestPlay), score,
                              meetsTarget, bestPlay.discard, reasoning));
      assert r == Advise(bestPlay, targetScore, handsRemaining, discardsRemaining);
    }

    /** `analyzeAllPlays`: score every combination into a list, then sort it by descending score. */
    method AnalyzeAllPlays(hand: seq<Card>) returns (results: seq<Analysis>)
      requires Valid()
      ensures results == AllPlays(scoringEngine.handLevels, hand)
    {
      if |hand| > 5 {
        var combinations := GetCombinations(|hand|, 5);
        assert combinations == Fives(|hand|);
        results := ScoreEach(hand, combinations);
        results := SortDesc(results, AnalysisScore);
      } else {
        var result := scoringEngine.CalculateScore(hand);
        results := [Analyzed(Range(|hand|), result)];
      }
    }

    /** The loop of `analyzeAllPlays`: one entry per combination, in enumeration order. */
    method ScoreEach(hand: seq<Card>, combinations: seq<seq<nat>>) returns (results: seq<Analysis>)
      requires Valid()
      requires forall c :: c in combinations ==> InHand(c, |hand|)
      ensures results == Unsorted(scoringEngine.handLevels, hand, combinations)
    {
      results := [];
      var i := 0;
      while i < |combinations|
        invariant 0 <= i <= |combinations|
        invariant results == Unsorted(scoringEngine.handLevels, hand, combinations[..i])
      {
        assert combinations[..i + 1][..i] == combinations[..i];
        var combo := combinations[i];
        var result := scoringEngine.CalculateScore(Pick(hand, combo));
        results := results + [Analyzed(combo, result)];
        i := i + 1;
      }
      assert combinations[..i] == combinations;
    }

    /**
     * `recommendDiscard`: copy the best play's lists above 100 points;
     * otherwise tally ranks and suits, deal the cards to keep or discard, and
     * top the keep list up to three from the end of the discard list.
     */
    method RecommendDiscard(hand: seq<Card>) returns (advice: DiscardAdvice)
      requires Valid()
      ensures advice == DiscardOf(scoringEngine.handLevels, hand)
    {
      var bestPlay := scoringEngine.FindBestPlay(hand);
      if bestPlay.result.Some? && bestPlay.result.value.score > 100 {
        return DiscardAdvice(bestPlay.discard, StrongHand(bestPlay.result.value.handType, bestPlay.result.value.score),
                             bestPlay.recommended);
      }

      var ranks, suits := TallyHand(hand);
      var keepCards, discardCards := Deal(hand, ranks, suits);
      keepCards, discardCards := FillKeep(keepCards, discardCards);
      advice := DiscardAdvice(Some(discardCards), PairsOrFlushes(|discardCards|), Some(keepCards));
    }
  }
}
