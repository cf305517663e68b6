/**
 * What the score calculator and the best-play search of
 * src/scoring-engine.js guarantee: positive scores at valid levels, the
 * effect of a level change, the regression hands of the source's own test
 * driver, and the outcome of the best-so-far scan.
 */
module ScoringProperties {
  import opened Wrappers
  import opened Cards
  import opened HandTypes
  import opened Classifier
  import opened ClassifierProperties
  import opened Combinations
  import opened Scoring

  // ---------------------------------------------------------------------
  // The score formula
  // ---------------------------------------------------------------------

  /** The xmult factor never makes the final score smaller than chips times mult. */
  lemma FinalScoreAtLeast(b: Breakdown)
    requires b.totalChips * b.totalMult >= 0 && b.xMult >= 1.0
    ensures FinalScore(b) >= b.totalChips * b.totalMult
  {
    var a := (b.totalChips * b.totalMult) as real;
    var d := b.xMult - 1.0;
    assert a * d >= 0.0;
    assert a * b.xMult == a * (1.0 + d) == a + a * d;
  }

  /**
   * With every level at least 1, a non-empty set of cards scores above zero:
   * the xmult factors never reduce chips times mult, which is at least 5.
   * An empty set scores 0 as High Card.
   */
  lemma ScorePositive(levels: map<HandType, int>, cards: seq<Card>)
    requires LevelsValid(levels)
    ensures |cards| == 0 ==> Score(levels, cards) == ScoreResult(0, HighCard, None)
    ensures |cards| > 0 ==> Score(levels, cards).breakdown.Some?
    ensures |cards| > 0 ==> var b := Score(levels, cards).breakdown.value;
                            Score(levels, cards).score >= b.totalChips * b.totalMult >= 5
  {
    if |cards| > 0 {
      var t := Classify(cards);
      var r := Score(levels, cards);
      var b := r.breakdown.value;
      assert r.score == FinalScore(b);
      assert b.totalChips == BaseChips(t, levels[t]) + SumChips(cards);
      assert b.totalMult == BaseMult(t, levels[t]) + SumMult(cards);
      assert b.xMult == ProdXMult(cards);
      BaseAtValidLevel(t, levels[t]);
      ProductAtLeastFive(b.totalChips, b.totalMult);
      FinalScoreAtLeast(b);
    }
  }

  /** At least 5 chips times at least 1 mult is at least 5. */
  lemma ProductAtLeastFive(chips: int, mult: int)
    requires chips >= 5 && mult >= 1
    ensures chips * mult >= 5
  {
    assert chips * mult >= chips * 1;
  }

  /** Raising both positive factors raises the product. */
  lemma ProductGrows(chips: int, mult: int, chips': int, mult': int)
    requires 0 < chips < chips' && 0 < mult < mult'
    ensures 0 < chips * mult < chips' * mult'
  {
    assert chips * mult < chips' * mult;
    assert chips' * mult < chips' * mult';
  }

  /** With the same xmult, more chips times mult means a strictly higher final score. */
  lemma FinalScoreGrows(b: Breakdown, b': Breakdown)
    requires 0 <= b.totalChips * b.totalMult < b'.totalChips * b'.totalMult
    requires b.xMult == b'.xMult && b.xMult >= 1.0
    ensures FinalScore(b) < FinalScore(b')
  {
    var a := (b.totalChips * b.totalMult) as real;
    var a' := (b'.totalChips * b'.totalMult) as real;
    assert a' * b.xMult - a * b.xMult == (a' - a) * b.xMult;
    assert (a' - a) * b.xMult >= (a' - a) * 1.0;
  }

  /**
   * Raising the level of the type a hand classifies as strictly raises its
   * score: base chips and base mult both grow with the level.
   */
  lemma LevelUpRaisesScore(levels: map<HandType, int>, cards: seq<Card>, level: int)
    requires LevelsValid(levels) && |cards| > 0
    requires level > levels[Classify(cards)]
    ensures Score(levels[Classify(cards) := level], cards).score > Score(levels, cards).score
  {
    var t := Classify(cards);
    var raised := levels[t := level];
    assert raised[t] == level;
    var r := Score(levels, cards);
    var r' := Score(raised, cards);
    var b := r.breakdown.value;
    var b' := r'.breakdown.value;
    assert r.score == FinalScore(b) && r'.score == FinalScore(b');
    assert b.totalChips == BaseChips(t, levels[t]) + SumChips(cards);
    assert b.totalMult == BaseMult(t, levels[t]) + SumMult(cards);
    assert b'.totalChips == BaseChips(t, level) + SumChips(cards);
    assert b'.totalMult == BaseMult(t, level) + SumMult(cards);
    assert b'.xMult == b.xMult == ProdXMult(cards);
    BaseStrictlyIncreasing(t, levels[t], level);
    BaseAtValidLevel(t, levels[t]);
    ProductGrows(b.totalChips, b.totalMult, b'.totalChips, b'.totalMult);
    FinalScoreGrows(b, b');
  }

  /** The level of any other hand type does not affect the score. */
  lemma OtherLevelsIrrelevant(levels: map<HandType, int>, cards: seq<Card>, other: HandType, level: int)
    requires Complete(levels)
    requires |cards| == 0 || other != Classify(cards)
    ensures Score(levels[other := level], cards) == Score(levels, cards)
  {
    if |cards| > 0 {
      var t := Classify(cards);
      assert levels[other := level][t] == levels[t];
      var b := Score(levels, cards).breakdown.value;
      var b' := Score(levels[other := level], cards).breakdown.value;
      assert b'.level == b.level;
      assert b'.baseChips == b.baseChips && b'.baseMult == b.baseMult;
      assert b'.totalChips == b.totalChips && b'.totalMult == b.totalMult;
      assert b' == b;
    }
  }

  // ---------------------------------------------------------------------
  // The hands of the source's own test driver
  // ---------------------------------------------------------------------

  /** The chip and mult totals of five cards, card by card. */
  lemma FiveCardTotals(cards: seq<Card>)
    requires |cards| == 5
    ensures SumChips(cards) == CardChips(cards[0]) + CardChips(cards[1]) + CardChips(cards[2])
                             + CardChips(cards[3]) + CardChips(cards[4])
    ensures SumMult(cards) == CardMult(cards[0]) + CardMult(cards[1]) + CardMult(cards[2])
                            + CardMult(cards[3]) + CardMult(cards[4])
  {
    var c1, c2, c3, c4 := cards[..1], cards[..2], cards[..3], cards[..4];
    assert c1[..0] == [] && c2[..1] == c1 && c3[..2] == c2 && c4[..3] == c3 && cards[..4] == c4;
    assert SumChips(c1) == CardChips(cards[0]);
    assert SumChips(c2) == SumChips(c1) + CardChips(cards[1]);
    assert SumChips(c3) == SumChips(c2) + CardChips(cards[2]);
    assert SumChips(c4) == SumChips(c3) + CardChips(cards[3]);
    assert SumMult(c1) == CardMult(cards[0]);
    assert SumMult(c2) == SumMult(c1) + CardMult(cards[1]);
    assert SumMult(c3) == SumMult(c2) + CardMult(cards[2]);
    assert SumMult(c4) == SumMult(c3) + CardMult(cards[3]);
  }

  /** Five cards of which only the first may carry an xmult factor multiply by that factor. */
  lemma FirstCardXMult(cards: seq<Card>)
    requires |cards| == 5
    requires forall i :: 1 <= i < 5 ==> CardXMult(cards[i]) == 1.0
    ensures ProdXMult(cards) == CardXMult(cards[0])
  {
    var c1, c2, c3, c4 := cards[..1], cards[..2], cards[..3], cards[..4];
    assert c1[..0] == [] && c2[..1] == c1 && c3[..2] == c2 && c4[..3] == c3 && cards[..4] == c4;
    assert ProdXMult(c1) == CardXMult(cards[0]);
    assert ProdXMult(c2) == ProdXMult(c1);
    assert ProdXMult(c3) == ProdXMult(c2);
    assert ProdXMult(c4) == ProdXMult(c3);
  }

  /** `r` is a hand of type `t` that scored `score` through breakdown `b`. */
  predicate Scored(r: ScoreResult, score: int, t: HandType, b: Breakdown) {
    r.score == score && r.handType == t && r.breakdown.Some? && r.breakdown.value == b
  }

  /** A level-1 Pair scores 10 chips and 2 mult on top of its cards. */
  lemma PairAtLevelOne(levels: map<HandType, int>, cards: seq<Card>, chips: int, mult: int, x: real)
    requires Complete(levels) && levels[Pair] == 1
    requires |cards| > 0 && Classify(cards) == Pair
    requires SumChips(cards) == chips && SumMult(cards) == mult && ProdXMult(cards) == x
    ensures var b := Breakdown(1, 10, 2, 10 + chips, 2 + mult, x);
            Scored(Score(levels, cards), FinalScore(b), Pair, b)
  {
    assert Score(levels, cards) == ScoreAs(levels, Pair, cards);
    AsPairAtLevelOne(levels, cards, chips, mult, x);
  }

  /** Any cards counted as a level-1 Pair add 10 chips and 2 mult to their own. */
  lemma AsPairAtLevelOne(levels: map<HandType, int>, cards: seq<Card>, chips: int, mult: int, x: real)
    requires Complete(levels) && levels[Pair] == 1
    requires SumChips(cards) == chips && SumMult(cards) == mult && ProdXMult(cards) == x
    ensures var b := Breakdown(1, 10, 2, 10 + chips, 2 + mult, x);
            Scored(ScoreAs(levels, Pair, cards), FinalScore(b), Pair, b)
  {
  }

  /** A level-1 Flush scores 35 chips and 4 mult on top of its cards. */
  lemma FlushAtLevelOne(levels: map<HandType, int>, cards: seq<Card>, chips: int, mult: int, x: real)
    requires Complete(levels) && levels[Flush] == 1
    requires |cards| > 0 && Classify(cards) == Flush
    requires SumChips(cards) == chips && SumMult(cards) == mult && ProdXMult(cards) == x
    ensures var b := Breakdown(1, 35, 4, 35 + chips, 4 + mult, x);
            Scored(Score(levels, cards), FinalScore(b), Flush, b)
  {
    assert Score(levels, cards) == ScoreAs(levels, Flush, cards);
    AsFlushAtLevelOne(levels, cards, chips, mult, x);
  }

  /** Any cards counted as a level-1 Flush add 35 chips and 4 mult to their own. */
  lemma AsFlushAtLevelOne(levels: map<HandType, int>, cards: seq<Card>, chips: int, mult: int, x: real)
    requires Complete(levels) && levels[Flush] == 1
    requires SumChips(cards) == chips && SumMult(cards) == mult && ProdXMult(cards) == x
    ensures var b := Breakdown(1, 35, 4, 35 + chips, 4 + mult, x);
            Scored(ScoreAs(levels, Flush, cards), FinalScore(b), Flush, b)
  {
  }

  /** A card with no enhancement, seal or edition. */
  predicate Unmodified(c: Card) {
    c.enhancement.None? && c.seal.None? && c.edition.None?
  }

  /** The test driver's first hand, K♠ K♥ 7♦ 3♣ 2♠. */
  function KingsHand(): seq<Card> {
    [Card(King, Spades, None, None, None), Card(King, Hearts, None, None, None),
     Card(Seven, Diamonds, None, None, None), Card(Three, Clubs, None, None, None),
     Card(Two, Spades, None, None, None)]
  }

  /** Five cards, no flush, one rank twice and no other rank twice, make a Pair. */
  lemma PairByCounts(cards: seq<Card>, r: Rank)
    requires |cards| == 5 && !IsFlush(cards)
    requires RankCount(cards, r) == 2 && TopTwo(RankCounts(cards)) == Leading(2, 1)
    ensures Classify(cards) == Pair
  {
    assert Played(cards) == cards;
    DistinctRankBound(cards);
    assert |RankIndices(Ranks(cards))| < 5;
    if StraightRanks(Ranks(cards)) {
      StraightHasFiveRanks(Ranks(cards));
    }
    assert Classify(cards) == Decide(Leading(2, 1), false, false);
  }

  /** The rank tallies of K K 7 3 2 in these suits. */
  lemma KingsCounts(cards: seq<Card>)
    requires |cards| == 5
    requires cards[0].rank == King && cards[1].rank == King && cards[2].rank == Seven
    requires cards[3].rank == Three && cards[4].rank == Two
    requires cards[0].suit == Spades && cards[1].suit == Hearts && cards[2].suit == Diamonds
    requires cards[3].suit == Clubs && cards[4].suit == Spades
    ensures RankCounts(cards) == [0, 1, 1, 0, 0, 0, 1, 0, 0, 0, 0, 0, 2]
    ensures !IsFlush(cards)
  {
    FiveCardCounts(cards);
  }

  /** Any K K 7 3 2 in these suits is a Pair. */
  lemma KingsArePair(cards: seq<Card>)
    requires |cards| == 5
    requires cards[0].rank == King && cards[1].rank == King && cards[2].rank == Seven
    requires cards[3].rank == Three && cards[4].rank == Two
    requires cards[0].suit == Spades && cards[1].suit == Hearts && cards[2].suit == Diamonds
    requires cards[3].suit == Clubs && cards[4].suit == Spades
    ensures Classify(cards) == Pair
  {
    KingsCounts(cards);
    var v := RankCounts(cards);
    TopTwoOf(v, 12, 1);
    assert RankCount(cards, King) == v[12];
    PairByCounts(cards, King);
  }

  /** Unmodified K K 7 3 2 score (10 + 32) × 2 = 84 at the default levels. */
  lemma KingsScore(cards: seq<Card>)
    requires |cards| == 5
    requires cards[0].rank == King && cards[1].rank == King && cards[2].rank == Seven
    requires cards[3].rank == Three && cards[4].rank == Two
    requires cards[0].suit == Spades && cards[1].suit == Hearts && cards[2].suit == Diamonds
    requires cards[3].suit == Clubs && cards[4].suit == Spades
    requires forall i :: 0 <= i < 5 ==> Unmodified(cards[i])
    ensures Scored(Score(DefaultLevels(), cards), 84, Pair, Breakdown(1, 10, 2, 42, 2, 1.0))
  {
    KingsArePair(cards);
    KingsTotals(cards);
    PairAtLevelOne(DefaultLevels(), cards, 32, 0, 1.0);
    assert FinalScore(Breakdown(1, 10, 2, 42, 2, 1.0)) == 84;
  }

  /** Unmodified K K 7 3 2 carry 32 chips, no mult and no xmult. */
  lemma KingsTotals(cards: seq<Card>)
    requires |cards| == 5
    requires cards[0].rank == King && cards[1].rank == King && cards[2].rank == Seven
    requires cards[3].rank == Three && cards[4].rank == Two
    requires forall i :: 0 <= i < 5 ==> Unmodified(cards[i])
    ensures SumChips(cards) == 32 && SumMult(cards) == 0 && ProdXMult(cards) == 1.0
  {
    FiveCardTotals(cards);
    FirstCardXMult(cards);
  }

  /** K♠ K♥ 7♦ 3♣ 2♠ is a Pair scoring 84 at level 1. */
  lemma PairOfKingsScores84()
    ensures Scored(Score(DefaultLevels(), KingsHand()), 84, Pair, Breakdown(1, 10, 2, 42, 2, 1.0))
  {
    KingsScore(KingsHand());
  }

  /** The test driver's Glass/Mult hand A♠[Glass] A♥[Mult] K♦ Q♣ J♠. */
  function GlassHand(): seq<Card> {
    [Card(Ace, Spades, Some(Glass), None, None), Card(Ace, Hearts, Some(Mult), None, None),
     Card(King, Diamonds, None, None, None), Card(Queen, Clubs, None, None, None),
     Card(Jack, Spades, None, None, None)]
  }

  /** The same ranks and suits without any modifier. */
  function PlainAces(): seq<Card> {
    [Card(Ace, Spades, None, None, None), Card(Ace, Hearts, None, None, None),
     Card(King, Diamonds, None, None, None), Card(Queen, Clubs, None, None, None),
     Card(Jack, Spades, None, None, None)]
  }

  /** The rank tallies of A A K Q J in these suits. */
  lemma AcesCounts(cards: seq<Card>)
    requires |cards| == 5
    requires cards[0].rank == Ace && cards[1].rank == Ace && cards[2].rank == King
    requires cards[3].rank == Queen && cards[4].rank == Jack
    requires cards[0].suit == Spades && cards[1].suit == Hearts && cards[2].suit == Diamonds
    requires cards[3].suit == Clubs && cards[4].suit == Spades
    ensures RankCounts(cards) == [2, 0, 0, 0, 0, 0, 0, 0, 0, 0, 1, 1, 1]
    ensures !IsFlush(cards)
  {
    FiveCardCounts(cards);
  }

  /** A♠ A♥ K♦ Q♣ J♠, whatever their modifiers, is a Pair. */
  lemma AcesArePair(cards: seq<Card>)
    requires |cards| == 5
    requires cards[0].rank == Ace && cards[1].rank == Ace && cards[2].rank == King
    requires cards[3].rank == Queen && cards[4].rank == Jack
    requires cards[0].suit == Spades && cards[1].suit == Hearts && cards[2].suit == Diamonds
    requires cards[3].suit == Clubs && cards[4].suit == Spades
    ensures Classify(cards) == Pair
  {
    AcesCounts(cards);
    var v := RankCounts(cards);
    TopTwoOf(v, 0, 10);
    assert RankCount(cards, Ace) == v[0];
    PairByCounts(cards, Ace);
  }

  /** A A K Q J in these suits, unmodified but for the first two cards, at the default levels. */
  lemma AcesScore(cards: seq<Card>, chips: nat, mult: nat, x: real)
    requires |cards| == 5
    requires cards[0].rank == Ace && cards[1].rank == Ace && cards[2].rank == King
    requires cards[3].rank == Queen && cards[4].rank == Jack
    requires cards[0].suit == Spades && cards[1].suit == Hearts && cards[2].suit == Diamonds
    requires cards[3].suit == Clubs && cards[4].suit == Spades
    requires forall i :: 2 <= i < 5 ==> Unmodified(cards[i])
    requires CardXMult(cards[1]) == 1.0
    requires CardChips(cards[0]) + CardChips(cards[1]) + 30 == chips
    requires CardMult(cards[0]) + CardMult(cards[1]) == mult
    requires CardXMult(cards[0]) == x
    ensures var b := Breakdown(1, 10, 2, 10 + chips, 2 + mult, x);
            Scored(Score(DefaultLevels(), cards), FinalScore(b), Pair, b)
  {
    AcesArePair(cards);
    AcesTotals(cards, chips, mult, x);
    PairAtLevelOne(DefaultLevels(), cards, chips, mult, x);
  }

  /** The totals of A A K Q J whose last three cards carry no modifier. */
  lemma AcesTotals(cards: seq<Card>, chips: nat, mult: nat, x: real)
    requires |cards| == 5
    requires cards[2].rank == King && cards[3].rank == Queen && cards[4].rank == Jack
    requires forall i :: 2 <= i < 5 ==> Unmodified(cards[i])
    requires CardXMult(cards[1]) == 1.0
    requires CardChips(cards[0]) + CardChips(cards[1]) + 30 == chips
    requires CardMult(cards[0]) + CardMult(cards[1]) == mult
    requires CardXMult(cards[0]) == x
    ensures SumChips(cards) == chips && SumMult(cards) == mult && ProdXMult(cards) == x
  {
    FiveCardTotals(cards);
    assert Unmodified(cards[2]) && Unmodified(cards[3]) && Unmodified(cards[4]);
    FirstCardXMult(cards);
  }

  /** The Glass/Mult hand is a Pair of aces scoring 62 × 6 × 2 = 744 at level 1. */
  lemma GlassHandScores744()
    ensures Scored(Score(DefaultLevels(), GlassHand()), 744, Pair, Breakdown(1, 10, 2, 62, 6, 2.0))
  {
    GlassCards();
    AcesScore(GlassHand(), 52, 4, 2.0);
    assert FinalScore(Breakdown(1, 10, 2, 62, 6, 2.0)) == 744;
  }

  /** The Glass ace adds 11 chips and doubles; the Mult ace adds 11 chips and 4 mult. */
  lemma GlassCards()
    ensures var cards := GlassHand();
            && CardChips(cards[0]) == 11 && CardChips(cards[1]) == 11
            && CardMult(cards[0]) == 0 && CardMult(cards[1]) == 4
            && CardXMult(cards[0]) == 2.0 && CardXMult(cards[1]) == 1.0
  {
  }

  /** Without its modifiers the same hand scores 62 × 2 = 124. */
  lemma PlainAcesScore124()
    ensures Scored(Score(DefaultLevels(), PlainAces()), 124, Pair, Breakdown(1, 10, 2, 62, 2, 1.0))
  {
    var cards := PlainAces();
    assert CardChips(cards[0]) == 11 && CardChips(cards[1]) == 11;
    assert CardMult(cards[0]) == 0 && CardMult(cards[1]) == 0;
    AcesScore(cards, 52, 0, 1.0);
    assert FinalScore(Breakdown(1, 10, 2, 62, 2, 1.0)) == 124;
  }

  /** A♠ K♠ Q♠ J♠ 10♠, the five spades of the test driver's eight-card hand. */
  function RoyalSpades(): seq<Card> {
    [Card(Ace, Spades, None, None, None), Card(King, Spades, None, None, None),
     Card(Queen, Spades, None, None, None), Card(Jack, Spades, None, None, None),
     Card(Ten, Spades, None, None, None)]
  }

  /** The rank tallies of A K Q J 10 of spades. */
  lemma RoyalCounts(cards: seq<Card>)
    requires |cards| == 5
    requires cards[0].rank == Ace && cards[1].rank == King && cards[2].rank == Queen
    requires cards[3].rank == Jack && cards[4].rank == Ten
    requires forall i :: 0 <= i < 5 ==> cards[i].suit == Spades
    ensures RankCounts(cards) == [1, 0, 0, 0, 0, 0, 0, 0, 0, 1, 1, 1, 1]
    ensures IsFlush(cards)
  {
    FiveCardCounts(cards);
  }

  /** Any A K Q J 10 of spades is a Flush and not a Straight Flush. */
  lemma RoyalIsFlush(cards: seq<Card>)
    requires |cards| == 5
    requires cards[0].rank == Ace && cards[1].rank == King && cards[2].rank == Queen
    requires cards[3].rank == Jack && cards[4].rank == Ten
    requires forall i :: 0 <= i < 5 ==> cards[i].suit == Spades
    ensures Classify(cards) == Flush
  {
    RoyalCounts(cards);
    assert Ranks(cards) == [Ace, King, Queen, Jack, Ten];
    AceHighIsNotStraight(Ranks(cards));
    TopTwoOf(RankCounts(cards), 0, 9);
  }

  /** Unmodified A K Q J 10 of spades score (35 + 51) × 4 = 344 at the default levels. */
  lemma RoyalScore(cards: seq<Card>)
    requires |cards| == 5
    requires cards[0].rank == Ace && cards[1].rank == King && cards[2].rank == Queen
    requires cards[3].rank == Jack && cards[4].rank == Ten
    requires forall i :: 0 <= i < 5 ==> cards[i].suit == Spades && Unmodified(cards[i])
    ensures Scored(Score(DefaultLevels(), cards), 344, Flush, Breakdown(1, 35, 4, 86, 4, 1.0))
  {
    RoyalIsFlush(cards);
    RoyalTotals(cards);
    FlushAtLevelOne(DefaultLevels(), cards, 51, 0, 1.0);
    assert FinalScore(Breakdown(1, 35, 4, 86, 4, 1.0)) == 344;
  }

  /** Unmodified A K Q J 10 carry 51 chips, no mult and no xmult. */
  lemma RoyalTotals(cards: seq<Card>)
    requires |cards| == 5
    requires cards[0].rank == Ace && cards[1].rank == King && cards[2].rank == Queen
    requires cards[3].rank == Jack && cards[4].rank == Ten
    requires forall i :: 0 <= i < 5 ==> Unmodified(cards[i])
    ensures SumChips(cards) == 51 && SumMult(cards) == 0 && ProdXMult(cards) == 1.0
  {
    FiveCardTotals(cards);
    FirstCardXMult(cards);
  }

  /** A♠ K♠ Q♠ J♠ 10♠ is a Flush scoring 344 at level 1. */
  lemma RoyalSpadesScore344()
    ensures Scored(Score(DefaultLevels(), RoyalSpades()), 344, Flush, Breakdown(1, 35, 4, 86, 4, 1.0))
  {
    RoyalScore(RoyalSpades());
  }

  // ---------------------------------------------------------------------
  // The best-so-far scan
  // ---------------------------------------------------------------------

  /**
   * The scan ends on the first position of the largest score when that score
   * is positive, and on no position when no score is.
   */
  lemma {:induction false} LeaderIsFirstMaximum(scores: seq<int>)
    ensures Leader(scores).Some? ==> var i := Leader(scores).value;
              && i < |scores| && scores[i] > 0
              && (forall j :: 0 <= j < |scores| ==> scores[j] <= scores[i])
              && (forall j :: 0 <= j < i ==> scores[j] < scores[i])
    ensures Leader(scores).None? ==> forall j :: 0 <= j < |scores| ==> scores[j] <= 0
  {
    if |scores| > 0 {
      var init := scores[..|scores| - 1];
      LeaderIsFirstMaximum(init);
      assert forall j :: 0 <= j < |init| ==> init[j] == scores[j];
    }
  }

  // ---------------------------------------------------------------------
  // The discarded positions
  // ---------------------------------------------------------------------

  /** The positions 0, 1, ..., n - 1. */
  function Range(n: nat): (r: seq<nat>)
    ensures |r| == n
    ensures forall i :: 0 <= i < n ==> r[i] == i
  {
    seq(n, i requires 0 <= i < n => i)
  }

  /** The complement lists, in ascending order, exactly the positions below n that `sel` leaves out. */
  lemma {:induction false} ComplementMembers(n: nat, sel: seq<nat>)
    ensures forall x: nat :: x in Complement(n, sel) <==> x < n && x !in sel
    ensures Increasing(Complement(n, sel))
    ensures forall j :: 0 <= j < |Complement(n, sel)| ==> Complement(n, sel)[j] < n
  {
    if n > 0 {
      var init := Complement(n - 1, sel);
      var tail := if n - 1 in sel then [] else [n - 1];
      ComplementMembers(n - 1, sel);
      assert Complement(n, sel) == init + tail;
      forall x: nat ensures x in init + tail <==> x < n && x !in sel {
        assert x in init + tail <==> x in init || x in tail;
      }
      forall i, j | 0 <= i < j < |init + tail| ensures (init + tail)[i] < (init + tail)[j] {
        if j >= |init| {
          assert (init + tail)[j] == n - 1 && (init + tail)[i] == init[i];
        }
      }
    }
  }

  /** A strictly increasing list holds each of its values exactly once. */
  lemma {:induction false} IncreasingOnce(s: seq<nat>)
    requires Increasing(s)
    ensures forall x :: multiset(s)[x] == if x in s then 1 else 0
  {
    if |s| > 0 {
      var init := s[..|s| - 1];
      var last := s[|s| - 1];
      IncreasingOnce(init);
      assert s == init + [last];
      assert last !in init;
      assert forall x :: x in s <==> x in init || x == last;
    }
  }

  /** A selection together with its complement is a rearrangement of all the positions. */
  lemma SelectionAndComplement(n: nat, sel: seq<nat>)
    requires Increasing(sel) && InHand(sel, n)
    ensures multiset(sel + Complement(n, sel)) == multiset(Range(n))
    ensures |sel| + |Complement(n, sel)| == n
  {
    var comp := Complement(n, sel);
    ComplementMembers(n, sel);
    IncreasingOnce(sel);
    IncreasingOnce(comp);
    IncreasingOnce(Range(n));
    forall x: nat | x < n ensures x in Range(n) {
      assert Range(n)[x] == x;
    }
    forall x ensures multiset(sel + comp)[x] == multiset(Range(n))[x] {
      assert multiset(sel + comp)[x] == multiset(sel)[x] + multiset(comp)[x];
    }
    assert multiset(sel + comp) == multiset(Range(n));
    assert |multiset(sel + comp)| == |multiset(Range(n))|;
  }

  // ---------------------------------------------------------------------
  // The best play
  // ---------------------------------------------------------------------

  /** The five-card combinations of an n-card hand, each inside the hand. */
  function Fives(n: nat): (combos: seq<seq<nat>>)
    ensures forall c :: c in combos ==> InHand(c, n)
  {
    FivesInHand(n);
    Choose(n, 0, 5)
  }

  /** The score reported by a best play, 0 when there is none. */
  function BestScore(p: BestPlay): int {
    if p.result.Some? then p.result.value.score else 0
  }

  /** No five-card combination of a hand of more than five cards scores more than the best play. */
  lemma BestPlayDominates(levels: map<HandType, int>, hand: seq<Card>)
    requires Complete(levels) && |hand| > 5
    ensures forall j :: 0 <= j < |Fives(|hand|)| ==>
              Score(levels, Pick(hand, Fives(|hand|)[j])).score <= BestScore(BestPlayOf(levels, hand))
  {
    var combos := Fives(|hand|);
    var scores := Scores(levels, hand, combos);
    SearchedPlay(levels, hand);
    LeaderIsFirstMaximum(scores);
  }

  /**
   * When a best play is found, it scores above zero, its score is the score
   * of the recommended cards, and the recommended combination is the first
   * in enumeration order to reach that score.
   */
  lemma BestPlayIsFirstMaximum(levels: map<HandType, int>, hand: seq<Card>)
    requires Complete(levels) && |hand| > 5
    ensures var p := BestPlayOf(levels, hand);
            && p.recommended.Some? && InHand(p.recommended.value, |hand|)
            && (p.result.Some? ==>
                  && p.result.value.score > 0
                  && p.result.value == Score(levels, Pick(hand, p.recommended.value))
                  && exists i :: 0 <= i < |Fives(|hand|)| && Fives(|hand|)[i] == p.recommended.value
                                 && forall j :: 0 <= j < i ==>
                                      Score(levels, Pick(hand, Fives(|hand|)[j])).score < p.result.value.score)
            && (p.result.None? ==> p.recommended.value == [])
  {
    var combos := Fives(|hand|);
    var scores := Scores(levels, hand, combos);
    SearchedPlay(levels, hand);
    LeaderIsFirstMaximum(scores);
    if Leader(scores).Some? {
      var i := Leader(scores).value;
      assert combos[i] in combos;
    }
  }

  /**
   * The recommended positions and the positions to discard together are a
   * rearrangement of the whole hand, the discards in hand order.
   */
  lemma BestPlayPartitionsHand(levels: map<HandType, int>, hand: seq<Card>)
    requires Complete(levels) && |hand| > 5
    ensures var p := BestPlayOf(levels, hand);
            && p.recommended.Some? && p.discard.Some?
            && p.discard.value == Complement(|hand|, p.recommended.value)
            && multiset(p.recommended.value + p.discard.value) == multiset(Range(|hand|))
  {
    var combos := Fives(|hand|);
    var scores := Scores(levels, hand, combos);
    SearchedPlay(levels, hand);
    ChooseShape(|hand|, 0, 5);
    if Leader(scores).Some? && Leader(scores).value < |combos| {
      var i := Leader(scores).value;
      assert combos[i] in combos;
      SelectionAndComplement(|hand|, combos[i]);
    } else {
      SelectionAndComplement(|hand|, []);
    }
  }

  /**
   * With every level at least 1 a hand of more than five cards always has a
   * best play: five cards, scoring above zero, with the other n - 5 positions
   * to discard in hand order.
   */
  lemma BestPlayExistsAtValidLevels(levels: map<HandType, int>, hand: seq<Card>)
    requires LevelsValid(levels) && |hand| > 5
    ensures var p := BestPlayOf(levels, hand);
            && p.result.Some? && p.result.value.score > 0
            && p.recommended.Some? && IsCombination(p.recommended.value, |hand|, 0, 5)
            && p.discard == Some(Complement(|hand|, p.recommended.value))
            && |p.discard.value| == |hand| - 5
  {
    var combos := Choose(|hand|, 0, 5);
    FivesInHand(|hand|);
    ChooseShape(|hand|, 0, 5);
    ChooseCount(|hand|, 0, 5);
    BinomPositive(|hand|, 5);
    var scores := Scores(levels, hand, combos);
    SearchedPlay(levels, hand);
    LeaderIsFirstMaximum(scores);
    assert combos[0] in combos;
    ScorePositive(levels, Pick(hand, combos[0]));
    var i := Leader(scores).value;
    assert combos[i] in combos;
    SelectionAndComplement(|hand|, combos[i]);
  }

  /** There is at least one way of choosing r from m when r <= m. */
  lemma {:induction false} BinomPositive(m: nat, r: nat)
    requires r <= m
    ensures Binom(m, r) >= 1
  {
    if r > 0 {
      BinomPositive(m - 1, r - 1);
    }
  }
}
