/**
 * What the classifier of src/scoring-engine.js guarantees: the straight test
 * as a statement about consecutive rank positions, the Ace-low-only rule,
 * the precedence of Straight Flush, the limits of short hands, and what the
 * count-based hand types mean in terms of rank frequencies.
 */
module ClassifierProperties {
  import opened Cards
  import opened HandTypes
  import opened Classifier

  // ---------------------------------------------------------------------
  // Straights
  // ---------------------------------------------------------------------

  /** Along a run of `n` unit steps every entry is the first plus its offset. */
  lemma {:induction false} StepsUpOffsets(u: seq<nat>, i: nat, n: nat, k: nat)
    requires i + n < |u| && k <= n
    requires StepsUp(u, i, n)
    ensures u[i + k] == u[i] + k
  {
    if k < n {
      StepsUpOffsets(u, i, n - 1, k);
    } else if n > 0 {
      StepsUpOffsets(u, i, n - 1, k - 1);
    }
  }

  /** In an ascending listing of `present`, the entry after `x` is `x + 1` whenever `x + 1` is present. */
  lemma NextInOrder(u: seq<nat>, present: set<nat>, i: nat)
    requires ListsInOrder(u, present, 0)
    requires i < |u| && u[i] + 1 in present && u[i] + 1 < 13
    ensures i + 1 < |u| && u[i + 1] == u[i] + 1
  {
    var x := u[i];
    assert x + 1 in u;
    var j :| 0 <= j < |u| && u[j] == x + 1;
    assert i < j;
    assert u[i] < u[i + 1] <= u[j];
  }

  /** A run in an ascending listing of `present` is five consecutive members of `present`. */
  lemma RunInListing(u: seq<nat>, present: set<nat>, i: nat)
    requires ListsInOrder(u, present, 0)
    requires i + 5 <= |u| && RunAt(u, i)
    ensures u[i] <= 8 && RunFrom(present, u[i])
  {
    StepsUpOffsets(u, i, 4, 1);
    StepsUpOffsets(u, i, 4, 2);
    StepsUpOffsets(u, i, 4, 3);
    StepsUpOffsets(u, i, 4, 4);
    assert u[i + 4] < 13;
  }

  /** Five consecutive members of `present` form a run in its ascending listing. */
  lemma ListingHasRun(u: seq<nat>, present: set<nat>, lo: nat)
    requires ListsInOrder(u, present, 0)
    requires lo <= 8 && RunFrom(present, lo)
    ensures HasRun(u)
  {
    assert lo in u;
    var i :| 0 <= i < |u| && u[i] == lo;
    NextInOrder(u, present, i);
    NextInOrder(u, present, i + 1);
    NextInOrder(u, present, i + 2);
    NextInOrder(u, present, i + 3);
    assert StepsUp(u, i, 0);
    assert StepsUp(u, i, 1);
    assert StepsUp(u, i, 2);
    assert StepsUp(u, i, 3);
    assert StepsUp(u, i, 4);
    assert RunAt(u, i);
  }

  /** A run found by the window scan is five consecutive present positions. */
  lemma StraightGivesRun(ranks: seq<Rank>) returns (lo: nat)
    requires StraightRanks(ranks)
    ensures lo <= 8 && RunFrom(RankIndices(ranks), lo)
  {
    var s := RankIndices(ranks);
    var u := Ascend(s, 0);
    AscendListsInOrder(s, 0);
    var i: nat :| i + 5 <= |u| && RunAt(u, i);
    RunInListing(u, s, i);
    lo := u[i];
  }

  /** Five consecutive present positions are found by the window scan. */
  lemma RunGivesStraight(ranks: seq<Rank>, lo: nat)
    requires lo <= 8 && RunFrom(RankIndices(ranks), lo)
    ensures StraightRanks(ranks)
  {
    var s := RankIndices(ranks);
    var u := Ascend(s, 0);
    AscendListsInOrder(s, 0);
    ListingHasRun(u, s, lo);
    assert lo in u;
  }

  /**
   * The straight test holds exactly when five consecutive positions of the
   * order A,2,...,K (Ace at 0 only) all occur among the ranks.
   */
  lemma StraightIffRun(ranks: seq<Rank>)
    ensures StraightRanks(ranks) <==> exists lo: nat :: lo <= 8 && RunFrom(RankIndices(ranks), lo)
  {
    if StraightRanks(ranks) {
      var lo := StraightGivesRun(ranks);
    }
    if lo: nat :| lo <= 8 && RunFrom(RankIndices(ranks), lo) {
      RunGivesStraight(ranks, lo);
    }
  }

  /** A-2-3-4-5 is a straight. */
  lemma AceLowIsStraight()
    ensures StraightRanks([Ace, Two, Three, Four, Five])
  {
    var ranks := [Ace, Two, Three, Four, Five];
    var s := RankIndices(ranks);
    assert StraightIndex(ranks[0]) == 0 && StraightIndex(ranks[1]) == 1 && StraightIndex(ranks[2]) == 2;
    assert StraightIndex(ranks[3]) == 3 && StraightIndex(ranks[4]) == 4;
    assert RunFrom(s, 0);
    StraightIffRun(ranks);
  }

  /**
   * Ranks drawn from 10, J, Q, K and A alone, 10-J-Q-K-A among them, never
   * form a straight: the Ace cannot follow the King.
   */
  lemma AceHighIsNotStraight(ranks: seq<Rank>)
    requires forall r :: r in ranks ==> r == Ace || StraightIndex(r) >= 9
    ensures !StraightRanks(ranks)
  {
    var s := RankIndices(ranks);
    assert forall x :: x in s ==> x == 0 || 9 <= x <= 12;
    StraightIffRun(ranks);
  }

  /** Adding one rank adds its position to the distinct positions. */
  lemma RankIndicesSnoc(ranks: seq<Rank>, r: Rank)
    ensures RankIndices(ranks + [r]) == RankIndices(ranks) + {StraightIndex(r)}
  {
    assert forall x :: x in ranks + [r] <==> x in ranks || x == r;
  }

  /**
   * There are at most as many distinct rank positions as cards, and one
   * fewer as soon as some rank occurs twice.
   */
  lemma {:induction false} DistinctRankBound(cards: seq<Card>)
    ensures |RankIndices(Ranks(cards))| <= |cards|
    ensures (exists r :: RankCount(cards, r) >= 2) ==> |RankIndices(Ranks(cards))| < |cards|
  {
    if |cards| > 0 {
      var init := cards[..|cards| - 1];
      var last := cards[|cards| - 1];
      DistinctRankBound(init);
      assert Ranks(cards) == Ranks(init) + [last.rank];
      RankIndicesSnoc(Ranks(init), last.rank);
      if r :| RankCount(cards, r) >= 2 {
        if RankCount(init, r) < 2 {
          assert last.rank == r && RankCount(init, r) == 1;
          RankOccurs(init, r);
          assert StraightIndex(r) in RankIndices(Ranks(init));
          assert RankIndices(Ranks(cards)) == RankIndices(Ranks(init));
        }
      }
    } else {
      assert RankIndices(Ranks(cards)) == {};
    }
  }

  /** A rank counted at least once is among the ranks. */
  lemma {:induction false} RankOccurs(cards: seq<Card>, r: Rank)
    requires RankCount(cards, r) >= 1
    ensures r in Ranks(cards)
  {
    var init := cards[..|cards| - 1];
    if cards[|cards| - 1].rank != r {
      RankOccurs(init, r);
      var i :| 0 <= i < |init| && Ranks(init)[i] == r;
      assert Ranks(cards)[i] == r;
    } else {
      assert Ranks(cards)[|cards| - 1] == r;
    }
  }

  /** Two different ranks together occur at most once per card. */
  lemma {:induction false} TwoRanksBound(cards: seq<Card>, r1: Rank, r2: Rank)
    requires r1 != r2
    ensures RankCount(cards, r1) + RankCount(cards, r2) <= |cards|
  {
    if |cards| > 0 {
      TwoRanksBound(cards[..|cards| - 1], r1, r2);
    }
  }

  /** A set holding five consecutive numbers has at least five members. */
  lemma RunHasFiveMembers(present: set<nat>, lo: nat)
    requires RunFrom(present, lo)
    ensures |present| >= 5
  {
    var run := {lo, lo + 1, lo + 2, lo + 3, lo + 4};
    assert |run| == 5;
    assert present == run + (present - run);
    assert |present| == |run| + |present - run|;
  }

  /** A straight needs five distinct ranks. */
  lemma StraightHasFiveRanks(ranks: seq<Rank>)
    requires StraightRanks(ranks)
    ensures |RankIndices(ranks)| >= 5
  {
    var lo := StraightGivesRun(ranks);
    RunHasFiveMembers(RankIndices(ranks), lo);
  }

  /** The largest rank frequency is attained by some rank. */
  lemma LeadingRank(cards: seq<Card>) returns (r: Rank)
    ensures RankCount(cards, r) == TopTwo(RankCounts(cards)).first
    ensures forall r' :: RankCount(cards, r') <= TopTwo(RankCounts(cards)).first
  {
    var v := RankCounts(cards);
    TopTwoIsSortedHead(v);
    var i :| 0 <= i < |v| && v[i] == TopTwo(v).first;
    r := RankAt(i);
    forall r' ensures RankCount(cards, r') <= TopTwo(v).first {
      RankAtIndex(r');
      assert v[StraightIndex(r')] == RankCount(cards, r');
    }
  }

  /**
   * The second entry of the descending frequencies is the frequency of a
   * rank other than a leading one, and at most one rank exceeds it.
   */
  lemma SecondRank(cards: seq<Card>) returns (r1: Rank, r2: Rank)
    ensures r1 != r2
    ensures RankCount(cards, r1) == TopTwo(RankCounts(cards)).first
    ensures RankCount(cards, r2) == TopTwo(RankCounts(cards)).second
    ensures forall a, b :: a != b ==> (RankCount(cards, a) <= TopTwo(RankCounts(cards)).second
                                    || RankCount(cards, b) <= TopTwo(RankCounts(cards)).second)
  {
    var v := RankCounts(cards);
    TopTwoIsSortedHead(v);
    var i, j :| 0 <= i < |v| && 0 <= j < |v| && i != j && v[i] == TopTwo(v).first && v[j] == TopTwo(v).second;
    r1, r2 := RankAt(i), RankAt(j);
    forall a, b | a != b
      ensures RankCount(cards, a) <= TopTwo(v).second || RankCount(cards, b) <= TopTwo(v).second
    {
      RankAtIndex(a);
      RankAtIndex(b);
      assert v[StraightIndex(a)] == RankCount(cards, a);
      assert v[StraightIndex(b)] == RankCount(cards, b);
    }
  }

  /**
   * The leading pair of a frequency list is read off any position `i` of a
   * largest entry and any other position `j` holding the largest of the rest.
   */
  lemma TopTwoOf(v: seq<nat>, i: nat, j: nat)
    requires i < |v| && j < |v| && i != j
    requires forall k :: 0 <= k < |v| ==> v[k] <= v[i]
    requires forall k :: 0 <= k < |v| && k != i ==> v[k] <= v[j]
    ensures TopTwo(v) == Leading(v[i], v[j])
  {
    TopTwoIsSortedHead(v);
    var t := TopTwo(v);
    var i', j' :| 0 <= i' < |v| && 0 <= j' < |v| && i' != j' && v[i'] == t.first && v[j'] == t.second;
    assert t.first == v[i];
    assert v[i] <= t.second || v[j] <= t.second;
    if j' != i {
      assert t.second <= v[j];
    } else {
      assert v[i'] <= v[j];
    }
  }

  /** 1 when `b` holds, 0 otherwise. */
  function Hit(b: bool): nat {
    if b then 1 else 0
  }

  /** The rank and suit counts of five cards, card by card. */
  lemma FiveCardCounts(cards: seq<Card>)
    requires |cards| == 5
    ensures forall r :: RankCount(cards, r)
                        == Hit(cards[0].rank == r) + Hit(cards[1].rank == r) + Hit(cards[2].rank == r)
                         + Hit(cards[3].rank == r) + Hit(cards[4].rank == r)
    ensures forall s :: SuitCount(cards, s)
                        == Hit(cards[0].suit == s) + Hit(cards[1].suit == s) + Hit(cards[2].suit == s)
                         + Hit(cards[3].suit == s) + Hit(cards[4].suit == s)
  {
    var c1, c2, c3, c4 := cards[..1], cards[..2], cards[..3], cards[..4];
    assert c1[..0] == [] && c2[..1] == c1 && c3[..2] == c2 && c4[..3] == c3 && cards[..4] == c4;
    forall r ensures RankCount(cards, r)
                     == Hit(cards[0].rank == r) + Hit(cards[1].rank == r) + Hit(cards[2].rank == r)
                      + Hit(cards[3].rank == r) + Hit(cards[4].rank == r)
    {
      assert RankCount(c1, r) == Hit(cards[0].rank == r);
      assert RankCount(c2, r) == RankCount(c1, r) + Hit(cards[1].rank == r);
      assert RankCount(c3, r) == RankCount(c2, r) + Hit(cards[2].rank == r);
      assert RankCount(c4, r) == RankCount(c3, r) + Hit(cards[3].rank == r);
    }
    forall s ensures SuitCount(cards, s)
                     == Hit(cards[0].suit == s) + Hit(cards[1].suit == s) + Hit(cards[2].suit == s)
                      + Hit(cards[3].suit == s) + Hit(cards[4].suit == s)
    {
      assert SuitCount(c1, s) == Hit(cards[0].suit == s);
      assert SuitCount(c2, s) == SuitCount(c1, s) + Hit(cards[1].suit == s);
      assert SuitCount(c3, s) == SuitCount(c2, s) + Hit(cards[2].suit == s);
      assert SuitCount(c4, s) == SuitCount(c3, s) + Hit(cards[3].suit == s);
    }
  }

  // ---------------------------------------------------------------------
  // Precedence and short hands
  // ---------------------------------------------------------------------

  /** Only the first five cards are classified; an empty hand is High Card. */
  lemma ClassifyLooksAtFirstFive(cards: seq<Card>)
    ensures |cards| == 0 ==> Classify(cards) == HighCard
    ensures |cards| > 5 ==> Classify(cards) == Classify(cards[..5])
  {
  }

  /**
   * A hand that is both a flush and a straight is a Straight Flush, never a
   * Flush or a Straight alone.
   */
  lemma StraightFlushWins(cards: seq<Card>)
    requires IsFlush(Played(cards)) && StraightRanks(Ranks(Played(cards)))
    ensures Classify(cards) == StraightFlush
  {
    var p := Played(cards);
    StraightHasFiveRanks(Ranks(p));
    DistinctRankBound(p);
    var r := LeadingRank(p);
    var c := TopTwo(RankCounts(p));
    assert c.first <= 1;
    assert |cards| > 0 && Classify(cards) == Decide(c, true, true);
  }

  /**
   * Fewer than five cards never make a Flush, a Straight, or any hand type
   * that needs five cards (Flush Five, Five of a Kind, Flush House, Straight
   * Flush, Full House).
   */
  lemma ShortHandTypes(cards: seq<Card>)
    requires |cards| < 5
    ensures !IsFlush(cards) && !StraightRanks(Ranks(cards))
    ensures Classify(cards) in {HighCard, Pair, TwoPair, ThreeOfAKind, FourOfAKind}
  {
    if StraightRanks(Ranks(cards)) {
      StraightHasFiveRanks(Ranks(cards));
      DistinctRankBound(cards);
    }
    if |cards| > 0 {
      var r1, r2 := SecondRank(cards);
      TwoRanksBound(cards, r1, r2);
    }
  }

  /**
   * A hand of cards is classified by the precedence chain applied to the two
   * largest rank counts of its played cards and its flush and straight tests.
   */
  lemma ClassifyDecides(cards: seq<Card>) returns (c: Leading)
    requires Classify(cards) != HighCard
    ensures c == TopTwo(RankCounts(Played(cards)))
    ensures Decide(c, IsFlush(Played(cards)), StraightRanks(Ranks(Played(cards)))) == Classify(cards)
  {
    c := TopTwo(RankCounts(Played(cards)));
  }

  /** What the precedence chain reads off the two largest rank counts. */
  lemma DecideCounts(c: Leading, flush: bool, straight: bool)
    ensures Decide(c, flush, straight) == Pair ==> c.first == 2 && c.second != 2
    ensures Decide(c, flush, straight) == TwoPair ==> c.first == 2 && c.second == 2
    ensures Decide(c, flush, straight) in {FullHouse, FlushHouse} ==> c.first == 3 && c.second == 2
    ensures Decide(c, flush, straight) in {FiveOfAKind, FlushFive} ==> c.first == 5
  {
  }

  /** A Pair is one rank twice and every other rank at most once. */
  lemma PairMeansOnePair(cards: seq<Card>)
    requires Classify(cards) == Pair
    ensures exists r :: RankCount(Played(cards), r) == 2
    ensures forall r, r' :: r != r' && RankCount(Played(cards), r) == 2 ==> RankCount(Played(cards), r') <= 1
  {
    var c := ClassifyDecides(cards);
    DecideCounts(c, IsFlush(Played(cards)), StraightRanks(Ranks(Played(cards))));
    var p := Played(cards);
    var r1, r2 := SecondRank(p);
  }

  /** Two Pair is two different ranks twice each and no rank more than twice. */
  lemma TwoPairMeansTwoPairs(cards: seq<Card>)
    requires Classify(cards) == TwoPair
    ensures exists r1, r2 :: r1 != r2 && RankCount(Played(cards), r1) == 2 && RankCount(Played(cards), r2) == 2
    ensures forall r :: RankCount(Played(cards), r) <= 2
  {
    var c := ClassifyDecides(cards);
    DecideCounts(c, IsFlush(Played(cards)), StraightRanks(Ranks(Played(cards))));
    var p := Played(cards);
    var r1, r2 := SecondRank(p);
    var r := LeadingRank(p);
  }

  /** Full House and Flush House are one rank three times and another twice. */
  lemma HouseMeansThreeAndTwo(cards: seq<Card>)
    requires Classify(cards) in {FullHouse, FlushHouse}
    ensures exists r1, r2 :: r1 != r2 && RankCount(Played(cards), r1) == 3 && RankCount(Played(cards), r2) == 2
  {
    var c := ClassifyDecides(cards);
    DecideCounts(c, IsFlush(Played(cards)), StraightRanks(Ranks(Played(cards))));
    var p := Played(cards);
    var r1, r2 := SecondRank(p);
  }

  /** Five of a Kind and Flush Five are all five played cards of one rank. */
  lemma FiveMeansOneRank(cards: seq<Card>)
    requires Classify(cards) in {FiveOfAKind, FlushFive}
    ensures |cards| >= 5
    ensures exists r :: RankCount(Played(cards), r) == 5
  {
    var c := ClassifyDecides(cards);
    DecideCounts(c, IsFlush(Played(cards)), StraightRanks(Ranks(Played(cards))));
    var p := Played(cards);
    var r := LeadingRank(p);
  }
}
