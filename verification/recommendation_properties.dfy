/**
 * What the advisor promises: the decision table of `recommendPlay` and the
 * one case in which it breaks, the urgency levels, the shop's choice of the
 * first joker of the highest priority, the order and contents of
 * `analyzeAllPlays`, the partition `recommendDiscard` makes of the hand, and
 * how `setHandLevels` leaves the level table.
 */
module RecommendationProperties {
  import opened Wrappers
  import opened Cards
  import opened HandTypes
  import opened Classifier
  import opened Combinations
  import opened Scoring
  import opened ScoringProperties
  import opened Sorting
  import opened Recommendation

  // ---------------------------------------------------------------------
  // setHandLevels
  // ---------------------------------------------------------------------

  /** A hand type that no entry names keeps its level. */
  lemma {:induction false} OverwriteLeavesOthers(levels: map<HandType, int>, entries: seq<(HandType, int)>, t: HandType)
    requires t in levels
    requires forall i :: 0 <= i < |entries| ==> entries[i].0 != t
    ensures Overwrite(levels, entries)[t] == levels[t]
  {
    if |entries| > 0 {
      var init := entries[..|entries| - 1];
      assert forall i :: 0 <= i < |init| ==> init[i] == entries[i];
      OverwriteLeavesOthers(levels, init, t);
    }
  }

  /** A hand type takes the level of the last entry that names it. */
  lemma {:induction false} OverwriteLastWins(levels: map<HandType, int>, entries: seq<(HandType, int)>, i: nat)
    requires i < |entries|
    requires forall j :: i < j < |entries| ==> entries[j].0 != entries[i].0
    ensures Overwrite(levels, entries)[entries[i].0] == entries[i].1
  {
    var init := entries[..|entries| - 1];
    if i < |init| {
      assert forall j :: 0 <= j < |init| ==> init[j] == entries[j];
      OverwriteLastWins(levels, init, i);
    }
  }

  // ---------------------------------------------------------------------
  // recommendPlay
  // ---------------------------------------------------------------------

  /** The search found a play whose score reaches the target. */
  predicate Meets(best: BestPlay, target: int) {
    best.result.Some? && best.result.value.score >= target
  }

  /**
   * The advice fails exactly when it has to report the size of a discard
   * list the search did not produce: the target is missed, discards remain,
   * and the result is a bare score.
   */
  lemma AdviseFailsOnlyWithoutDiscardList(best: BestPlay, target: int, hands: int, discards: int)
    ensures Advise(best, target, hands, discards).Failure?
            <==> !Meets(best, target) && discards > 0 && best.discard.None?
  {
  }

  /**
   * The decision table: DISCARD exactly when the target is missed and
   * discards remain; the confidence is HIGH, MEDIUM for a discard, and LOW on
   * the last hand; three reasons for a discard and two otherwise; the search
   * result is reported unchanged.
   */
  lemma AdviseTable(best: BestPlay, target: int, hands: int, discards: int)
    requires Advise(best, target, hands, discards).Success?
    ensures var a := Advise(best, target, hands, discards).value;
            && (a.meetsTarget <==> Meets(best, target))
            && (a.action == Discard <==> !Meets(best, target) && discards > 0)
            && a.confidence == (if Meets(best, target) then High
                                else if discards > 0 then Medium
                                else if hands > 1 then High
                                else Low)
            && |a.reasoning| == (if a.action == Discard then 3 else 2)
            && a.reasoning[0] == (if Meets(best, target) then Exceeds(best.result.value.score, target)
                                  else ShortOf(PlayScore(best), target))
            && a.cards == best.recommended && a.cardsToDiscard == best.discard
            && a.expectedScore == PlayScore(best) && a.handType == PlayHandType(best)
  {
  }

  /**
   * On a hand of more than five cards the advice always succeeds, and a
   * discard suggestion counts the cards outside the recommended five (the
   * whole hand when nothing scored).
   */
  lemma AdviseOnLargeHands(levels: map<HandType, int>, hand: seq<Card>, target: int, hands: int, discards: int)
    requires Complete(levels) && |hand| > 5
    ensures var best := BestPlayOf(levels, hand);
            var r := Advise(best, target, hands, discards);
            && r.Success?
            && (r.value.action == Discard ==>
                  r.value.reasoning[1] == ConsiderDiscarding(if best.result.Some? then |hand| - 5 else |hand|))
  {
    BestPlayDiscardSize(levels, hand);
  }

  /** The discard list of a large hand's best play holds the cards outside the recommended five, or all of them. */
  lemma BestPlayDiscardSize(levels: map<HandType, int>, hand: seq<Card>)
    requires Complete(levels) && |hand| > 5
    ensures var best := BestPlayOf(levels, hand);
            && best.discard.Some?
            && |best.discard.value| == if best.result.Some? then |hand| - 5 else |hand|
  {
    var best := BestPlayOf(levels, hand);
    BestPlayPartitionsHand(levels, hand);
    BestPlayIsFirstMaximum(levels, hand);
    var rec := best.recommended.value;
    assert |rec + best.discard.value| == |hand| by {
      assert |multiset(rec + best.discard.value)| == |multiset(Range(|hand|))|;
    }
    if best.result.Some? {
      ChooseShape(|hand|, 0, 5);
      var i :| 0 <= i < |Fives(|hand|)| && Fives(|hand|)[i] == rec;
      assert rec in Choose(|hand|, 0, 5);
    }
  }

  /**
   * On a hand of five cards or fewer the advice fails exactly when the
   * whole hand misses the target while discards remain.
   */
  lemma AdviseOnSmallHands(levels: map<HandType, int>, hand: seq<Card>, target: int, hands: int, discards: int)
    requires Complete(levels) && |hand| <= 5
    ensures Advise(BestPlayOf(levels, hand), target, hands, discards).Failure?
            <==> Score(levels, hand).score < target && discards > 0
  {
    AdviseFailsOnlyWithoutDiscardList(BestPlayOf(levels, hand), target, hands, discards);
  }

  // ---------------------------------------------------------------------
  // calculateUrgency
  // ---------------------------------------------------------------------

  /**
   * Urgency by cases: LOW when the target is met, CRITICAL on the last hand,
   * HIGH when the expected score is under half the target, MEDIUM otherwise
   * (including an absent expected score). Halving is exact: under half means
   * twice the score is below the target.
   */
  lemma UrgencyTable(advice: PlayAdvice, hands: int, target: int)
    ensures UrgencyOf(advice, hands, target) == LowUrgency <==> advice.meetsTarget
    ensures UrgencyOf(advice, hands, target) == CriticalUrgency <==> !advice.meetsTarget && hands <= 1
    ensures UrgencyOf(advice, hands, target) == HighUrgency
            <==> !advice.meetsTarget && hands > 1 && advice.expectedScore.Some?
                 && 2 * advice.expectedScore.value < target
    ensures UrgencyOf(advice, hands, target) == MediumUrgency
            <==> !advice.meetsTarget && hands > 1
                 && (advice.expectedScore.None? || 2 * advice.expectedScore.value >= target)
  {
    if advice.expectedScore.Some? {
      var e := advice.expectedScore.value;
      assert (e as real) < (target as real) * 0.5 <==> 2 * e < target;
    }
  }

  /** A play advice that meets its target is never urgent; a missed one on the last hand always is critical. */
  lemma AdviceUrgency(best: BestPlay, target: int, hands: int, discards: int)
    requires Advise(best, target, hands, discards).Success?
    ensures var u := UrgencyOf(Advise(best, target, hands, discards).value, hands, target);
            && (u == LowUrgency <==> Meets(best, target))
            && (!Meets(best, target) && hands <= 1 ==> u == CriticalUrgency)
  {
    AdviseTable(best, target, hands, discards);
  }

  // ---------------------------------------------------------------------
  // recommendShopPurchase
  // ---------------------------------------------------------------------

  /** Every joker's priority lies between the default 5 and the table's top 10. */
  lemma PriorityBounds(name: string)
    ensures 5 <= Priority(ShopPriorities, name) <= 10
    ensures name !in ShopPriorities ==> Priority(ShopPriorities, name) == 5
  {
    assert forall k :: k in ShopPriorities ==> 7 <= ShopPriorities[k] <= 10;
  }

  /** The appraisal of each offer: BUY exactly when its cost is within the money. */
  lemma AppraiseBuysWhenAffordable(table: map<string, int>, j: Joker, money: int)
    ensures var a := Appraise(table, j, money);
            && a.Offer? && a.joker == j && a.priority == Priority(table, j.name)
            && (a.recommendation == Buy <==> a.affordable)
            && (a.affordable <==> j.cost <= money)
  {
  }

  /**
   * With jokers on offer, the pick is the appraisal of the first joker of
   * the highest priority; with none, the fallback.
   */
  lemma ShopPicksFirstBest(table: map<string, int>, jokers: seq<Joker>, money: int) returns (i: nat)
    ensures |jokers| == 0 ==> ShopPick(table, jokers, money) == NoGoodOption
    ensures |jokers| > 0 ==>
              && i < |jokers|
              && ShopPick(table, jokers, money) == Appraise(table, jokers[i], money)
              && (forall j :: 0 <= j < |jokers| ==> Priority(table, jokers[j].name) <= Priority(table, jokers[i].name))
              && (forall j :: 0 <= j < i ==> Priority(table, jokers[j].name) < Priority(table, jokers[i].name))
  {
    i := 0;
    if |jokers| > 0 {
      var offers := seq(|jokers|, k requires 0 <= k < |jokers| => Appraise(table, jokers[k], money));
      SortDescOrders(offers, OfferPriority);
      FirstTopIsFirstMaximum(offers, OfferPriority);
      i := FirstTop(offers, OfferPriority);
      assert forall k :: 0 <= k < |jokers| ==> OfferPriority(offers[k]) == Priority(table, jokers[k].name);
    }
  }

  // ---------------------------------------------------------------------
  // analyzeAllPlays
  // ---------------------------------------------------------------------

  /** Entry j of the unsorted list reports combination j and its score. */
  lemma {:induction false} UnsortedEntries(levels: map<HandType, int>, hand: seq<Card>, combos: seq<seq<nat>>)
    requires Complete(levels)
    requires forall c :: c in combos ==> InHand(c, |hand|)
    ensures forall j :: 0 <= j < |combos| ==>
              && Unsorted(levels, hand, combos)[j].cards == combos[j]
              && Unsorted(levels, hand, combos)[j].score == Score(levels, Pick(hand, combos[j])).score
              && Unsorted(levels, hand, combos)[j].handType == Score(levels, Pick(hand, combos[j])).handType
  {
    if |combos| > 0 {
      var init := combos[..|combos| - 1];
      UnsortedEntries(levels, hand, init);
      var e := Unsorted(levels, hand, combos);
      var last := combos[|combos| - 1];
      assert e == Unsorted(levels, hand, init) + [Analyzed(last, Score(levels, Pick(hand, last)))];
      forall j | 0 <= j < |init| ensures e[j] == Unsorted(levels, hand, init)[j] && init[j] == combos[j] {
      }
    }
  }

  /** One entry per five-card combination of a large hand, one entry for a small hand. */
  lemma AllPlaysCount(levels: map<HandType, int>, hand: seq<Card>)
    requires Complete(levels)
    ensures |AllPlays(levels, hand)| == if |hand| > 5 then Binom(|hand|, 5) else 1
  {
    ChooseCount(|hand|, 0, 5);
  }

  /** The entries are sorted by descending score and are exactly the scored combinations. */
  lemma AllPlaysSorted(levels: map<HandType, int>, hand: seq<Card>)
    requires Complete(levels)
    ensures Descending(AllPlays(levels, hand), AnalysisScore)
    ensures |hand| > 5 ==> multiset(AllPlays(levels, hand)) == multiset(Unsorted(levels, hand, Fives(|hand|)))
  {
    if |hand| > 5 {
      SortDescOrders(Unsorted(levels, hand, Fives(|hand|)), AnalysisScore);
      SortDescPermutes(Unsorted(levels, hand, Fives(|hand|)), AnalysisScore);
    }
  }

  /**
   * The first entry of a large hand's analysis is the play `findBestPlay`
   * recommends when it found one; when it found none, no entry scores
   * above zero.
   */
  lemma AllPlaysLeadIsBestPlay(levels: map<HandType, int>, hand: seq<Card>)
    requires Complete(levels) && |hand| > 5
    ensures |AllPlays(levels, hand)| > 0
    ensures var best := BestPlayOf(levels, hand);
            var lead := AllPlays(levels, hand)[0];
            && (best.result.Some? ==>
                  lead.score == best.result.value.score && best.recommended == Some(lead.cards))
            && (best.result.None? ==> lead.score <= 0)
  {
    var n := |hand|;
    var combos := Fives(n);
    AllPlaysCount(levels, hand);
    BinomPositive(n, 5);
    var xs := Unsorted(levels, hand, combos);
    var scores := Scores(levels, hand, combos);
    UnsortedEntries(levels, hand, combos);
    SortDescOrders(xs, AnalysisScore);
    LeaderIsFirstTop(xs, scores);
    SearchedPlay(levels, hand);
  }

  /** The best-so-far scan and the sort pick the same entry: the first of the highest score. */
  lemma LeaderIsFirstTop(xs: seq<Analysis>, scores: seq<int>)
    requires |xs| == |scores| > 0
    requires forall j :: 0 <= j < |xs| ==> xs[j].score == scores[j]
    ensures Leader(scores).Some? ==> Leader(scores).value == FirstTop(xs, AnalysisScore)
    ensures Leader(scores).None? ==> xs[FirstTop(xs, AnalysisScore)].score <= 0
  {
    FirstTopIsFirstMaximum(xs, AnalysisScore);
    LeaderIsFirstMaximum(scores);
    match Leader(scores)
    case Some(i) => FirstTopUnique(xs, AnalysisScore, i);
    case None =>
  }

  // ---------------------------------------------------------------------
  // recommendDiscard
  // ---------------------------------------------------------------------

  /** The deal sends each card to exactly one list, by its rank and suit tallies. */
  lemma {:induction false} SplitMembers(hand: seq<Card>, n: nat)
    requires n <= |hand|
    ensures forall i: nat :: i in Split(hand, n).keep <==> i < n && Promising(hand, i)
    ensures forall i: nat :: i in Split(hand, n).discard <==> i < n && !Promising(hand, i)
  {
    if n > 0 {
      SplitMembers(hand, n - 1);
    }
  }

  /** Both lists keep hand order. */
  lemma {:induction false} SplitInOrder(hand: seq<Card>, n: nat)
    requires n <= |hand|
    ensures Increasing(Split(hand, n).keep) && Increasing(Split(hand, n).discard)
    ensures forall j :: 0 <= j < |Split(hand, n).keep| ==> Split(hand, n).keep[j] < n
    ensures forall j :: 0 <= j < |Split(hand, n).discard| ==> Split(hand, n).discard[j] < n
  {
    if n > 0 {
      SplitInOrder(hand, n - 1);
      var p := Split(hand, n - 1);
      if Promising(hand, n - 1) {
        AppendKeepsIncreasing(p.keep, n - 1);
      } else {
        AppendKeepsIncreasing(p.discard, n - 1);
      }
    }
  }

  /** Appending a position above all others keeps a list increasing. */
  lemma AppendKeepsIncreasing(s: seq<nat>, x: nat)
    requires Increasing(s) && forall j :: 0 <= j < |s| ==> s[j] < x
    ensures Increasing(s + [x])
  {
  }

  /** Together the two lists hold every position of the hand once. */
  lemma {:induction false} SplitPartitions(hand: seq<Card>, n: nat)
    requires n <= |hand|
    ensures multiset(Split(hand, n).keep + Split(hand, n).discard) == multiset(Range(n))
  {
    if n > 0 {
      SplitPartitions(hand, n - 1);
      var p := Split(hand, n - 1);
      assert Range(n) == Range(n - 1) + [n - 1];
      if Promising(hand, n - 1) {
        assert multiset(p.keep + [n - 1] + p.discard) == multiset(p.keep + p.discard) + multiset{n - 1};
      } else {
        assert p.keep + (p.discard + [n - 1]) == (p.keep + p.discard) + [n - 1];
      }
    }
  }

  /**
   * The top-up stops with at least three kept cards or no discards left,
   * and leaves exactly three kept when it had to move some and could.
   */
  lemma {:induction false} TopUpStops(p: Piles)
    ensures |TopUp(p).keep| >= 3 || |TopUp(p).discard| == 0
    ensures |p.keep| >= 3 ==> TopUp(p) == p
    ensures |p.keep| < 3 ==>
              |TopUp(p).keep| == if |p.keep| + |p.discard| < 3 then |p.keep| + |p.discard| else 3
    decreases |p.discard|
  {
    if |p.keep| < 3 && |p.discard| > 0 {
      TopUpStops(Piles(p.keep + [p.discard[|p.discard| - 1]], p.discard[..|p.discard| - 1]));
    }
  }

  /** The top-up moves cards without losing or adding any. */
  lemma {:induction false} TopUpPermutes(p: Piles)
    ensures multiset(TopUp(p).keep + TopUp(p).discard) == multiset(p.keep + p.discard)
    decreases |p.discard|
  {
    if |p.keep| < 3 && |p.discard| > 0 {
      var last := p.discard[|p.discard| - 1];
      var rest := p.discard[..|p.discard| - 1];
      TopUpPermutes(Piles(p.keep + [last], rest));
      assert p.discard == rest + [last];
      assert multiset(p.keep + [last] + rest) == multiset(p.keep + p.discard);
    }
  }

  /** The elements of `s` in reverse order. */
  function Reversed<T>(s: seq<T>): (r: seq<T>)
    ensures |r| == |s|
  {
    if |s| == 0 then [] else [s[|s| - 1]] + Reversed(s[..|s| - 1])
  }

  /**
   * The discard list shrinks only at its end, and the kept list grows by
   * the removed cards, latest first.
   */
  lemma {:induction false} TopUpMovesFromEnd(p: Piles)
    ensures |TopUp(p).discard| <= |p.discard|
    ensures TopUp(p).discard == p.discard[..|TopUp(p).discard|]
    ensures TopUp(p).keep == p.keep + Reversed(p.discard[|TopUp(p).discard|..])
    decreases |p.discard|
  {
    if |p.keep| < 3 && |p.discard| > 0 {
      var last := p.discard[|p.discard| - 1];
      var rest := p.discard[..|p.discard| - 1];
      var q := Piles(p.keep + [last], rest);
      TopUpMovesFromEnd(q);
      var k := |TopUp(q).discard|;
      var moved := p.discard[k..];
      assert moved[..|moved| - 1] == rest[k..];
      assert Reversed(moved) == [last] + Reversed(rest[k..]);
      AppendAssociates(p.keep, [last], Reversed(rest[k..]));
    } else {
      assert p.discard[|p.discard|..] == [];
    }
  }

  /** The advice takes the best play's lists exactly when that play scores above 100. */
  lemma DiscardOfStrongHand(levels: map<HandType, int>, hand: seq<Card>)
    requires Complete(levels)
    ensures var best := BestPlayOf(levels, hand);
            var a := DiscardOf(levels, hand);
            && (a.reason.StrongHand? <==> best.result.Some? && best.result.value.score > 100)
            && (a.reason.StrongHand? ==> a.cardsToDiscard == best.discard && a.keepCards == best.recommended)
            && (a.reason.PairsOrFlushes? ==> a.cardsToDiscard.Some? && a.reason.discarding == |a.cardsToDiscard.value|)
  {
  }

  /**
   * Whenever the advice holds both lists, they split the hand: every
   * position is kept or discarded, once. The lists are absent only when a
   * strong hand of five cards or fewer was scored whole.
   */
  lemma DiscardOfPartitions(levels: map<HandType, int>, hand: seq<Card>)
    requires Complete(levels)
    ensures var a := DiscardOf(levels, hand);
            && (a.cardsToDiscard.Some? <==> a.keepCards.Some?)
            && (a.cardsToDiscard.None? ==> |hand| <= 5 && a.reason.StrongHand?)
            && (a.cardsToDiscard.Some? ==>
                  multiset(a.keepCards.value + a.cardsToDiscard.value) == multiset(Range(|hand|)))
  {
    var best := BestPlayOf(levels, hand);
    if best.result.Some? && best.result.value.score > 100 {
      if |hand| > 5 {
        BestPlayPartitionsHand(levels, hand);
      }
    } else {
      SplitPartitions(hand, |hand|);
      TopUpPermutes(Split(hand, |hand|));
    }
  }

  /**
   * With at most 100 points, or no score, every card with a repeated rank or
   * a suit held three times is kept, and at least three cards are kept when the hand has them.
   */
  lemma DiscardOfKeepsPromising(levels: map<HandType, int>, hand: seq<Card>)
    requires Complete(levels)
    requires DiscardOf(levels, hand).reason.PairsOrFlushes?
    ensures var a := DiscardOf(levels, hand);
            && (forall i :: 0 <= i < |hand| && Promising(hand, i) ==> i in a.keepCards.value)
            && |a.keepCards.value| >= (if |hand| < 3 then |hand| else 3)
  {
    var p := Split(hand, |hand|);
    SplitMembers(hand, |hand|);
    TopUpStops(p);
    TopUpMovesFromEnd(p);
    var q := TopUp(p);
    forall i | 0 <= i < |hand| && Promising(hand, i) ensures i in q.keep {
      assert i in p.keep;
    }
  }
}
