/**
 * The score calculator and best-play search of src/scoring-engine.js:
 * `calculateScore`, `findBestPlay` and the per-engine `handLevels`.
 *
 * The specification functions Score and BestPlayOf say what a call computes;
 * the ScoringEngine class holds the mutable level table and implements the
 * source's loops, each proved equal to its specification function. A hand is
 * a sequence of cards and a card is identified by its position in it.
 */
module Scoring {
  import opened Wrappers
  import opened Cards
  import opened HandTypes
  import opened Classifier
  import opened Combinations

  /** The breakdown of a non-empty score (an empty hand reports none). */
  datatype Breakdown = Breakdown(level: int, baseChips: int, baseMult: int,
                                 totalChips: int, totalMult: int, xMult: real)

  /** The result of `calculateScore`. */
  datatype ScoreResult = ScoreResult(score: int, handType: HandType, breakdown: Option<Breakdown>)

  /**
   * The result of `findBestPlay`. `result` is absent when no combination
   * scored above zero; `recommended` and `discard` are absent for hands of at
   * most five cards, where the source returns a bare score.
   */
  datatype BestPlay = BestPlay(result: Option<ScoreResult>, recommended: Option<seq<nat>>,
                               discard: Option<seq<nat>>)

  // ---------------------------------------------------------------------
  // Card totals
  // ---------------------------------------------------------------------

  /** The chips all the cards add; each card adds at least two. */
  function SumChips(cards: seq<Card>): (total: nat)
    ensures total >= 2 * |cards|
  {
    if |cards| == 0 then 0
    else SumChips(cards[..|cards| - 1]) + CardChips(cards[|cards| - 1])
  }

  /** The mult all the cards add; each card adds at most 14. */
  function SumMult(cards: seq<Card>): (total: nat)
    ensures total <= 14 * |cards|
  {
    if |cards| == 0 then 0
    else SumMult(cards[..|cards| - 1]) + CardMult(cards[|cards| - 1])
  }

  /** The product of the cards' xmult factors; it never shrinks the score. */
  function ProdXMult(cards: seq<Card>): (x: real)
    ensures x >= 1.0
  {
    if |cards| == 0 then 1.0
    else
      var init := ProdXMult(cards[..|cards| - 1]);
      var last := CardXMult(cards[|cards| - 1]);
      assert init * last >= 1.0 * last by {
        assert init - 1.0 >= 0.0 && last >= 0.0;
        assert (init - 1.0) * last >= 0.0;
      }
      init * last
  }

  // ---------------------------------------------------------------------
  // The score of a set of cards
  // ---------------------------------------------------------------------

  /** Total chips times total mult times xmult, rounded down. */
  function FinalScore(b: Breakdown): int {
    ((b.totalChips * b.totalMult) as real * b.xMult).Floor
  }

  /**
   * `calculateScore`: classify the first five cards and score all of them as
   * a hand of that type; no cards score nothing.
   */
  function Score(levels: map<HandType, int>, cards: seq<Card>): ScoreResult
    requires Complete(levels)
  {
    if |cards| == 0 then ScoreResult(0, HighCard, None)
    else ScoreAs(levels, Classify(cards), cards)
  }

  /**
   * The cards scored as a hand of type `t`: look the type's level up, add
   * every card's chips and mult to the level-scaled base values, multiply by
   * every card's xmult and round down.
   */
  function ScoreAs(levels: map<HandType, int>, t: HandType, cards: seq<Card>): ScoreResult
    requires Complete(levels)
  {
    var level := levels[t];
    var baseChips := BaseChips(t, level);
    var baseMult := BaseMult(t, level);
    var totalChips := baseChips + SumChips(cards);
    var totalMult := baseMult + SumMult(cards);
    var breakdown := Breakdown(level, baseChips, baseMult, totalChips, totalMult, ProdXMult(cards));
    ScoreResult(FinalScore(breakdown), t, Some(breakdown))
  }

  // ---------------------------------------------------------------------
  // The best-play search
  // ---------------------------------------------------------------------

  /** Every position of `c` lies inside a hand of `n` cards. */
  predicate InHand(c: seq<nat>, n: nat) {
    forall j :: 0 <= j < |c| ==> c[j] < n
  }

  /** The cards at the given positions, in that order. */
  function Pick(hand: seq<Card>, c: seq<nat>): (cards: seq<Card>)
    requires InHand(c, |hand|)
    ensures |cards| == |c|
    ensures forall j :: 0 <= j < |c| ==> cards[j] == hand[c[j]]
  {
    seq(|c|, j requires 0 <= j < |c| => hand[c[j]])
  }

  /** The score of each combination, in enumeration order. */
  function Scores(levels: map<HandType, int>, hand: seq<Card>, combos: seq<seq<nat>>): (scores: seq<int>)
    requires Complete(levels)
    requires forall c :: c in combos ==> InHand(c, |hand|)
    ensures |scores| == |combos|
    ensures forall j :: 0 <= j < |combos| ==> scores[j] == Score(levels, Pick(hand, combos[j])).score
  {
    seq(|combos|, j requires 0 <= j < |combos| => Score(levels, Pick(hand, combos[j])).score)
  }

  /**
   * The best-so-far scan: starting from a best score of 0, a position takes
   * the lead only when its score is strictly greater than the current best.
   */
  function Leader(scores: seq<int>): Option<nat> {
    if |scores| == 0 then None
    else
      var init := scores[..|scores| - 1];
      var best := Leader(init);
      var x := scores[|scores| - 1];
      if (best.None? && x > 0) || (best.Some? && best.value < |init| && x > init[best.value])
      then Some(|init|)
      else best
  }

  /** One step of the best-so-far scan, as the loop of `findBestPlay` takes it. */
  lemma LeaderStep(scores: seq<int>, i: nat)
    requires i < |scores|
    ensures var best := Leader(scores[..i]);
            Leader(scores[..i + 1])
            == if (best.None? && scores[i] > 0) || (best.Some? && best.value < i && scores[i] > scores[best.value])
               then Some(i) else best
  {
    assert scores[..i + 1][..i] == scores[..i];
  }

  /** The positions in [0, n) that `sel` does not pick, in hand order. */
  function Complement(n: nat, sel: seq<nat>): seq<nat> {
    if n == 0 then [] else Complement(n - 1, sel) + (if n - 1 in sel then [] else [n - 1])
  }

  /** Every five-card combination of an n-card hand lies inside the hand. */
  lemma FivesInHand(n: nat)
    ensures forall c :: c in Choose(n, 0, 5) ==> InHand(c, n)
  {
    ChooseShape(n, 0, 5);
  }

  /**
   * `findBestPlay`: a hand of at most five cards is scored whole; otherwise
   * the first combination of the highest positive score is recommended and
   * the rest of the hand is to be discarded.
   */
  function BestPlayOf(levels: map<HandType, int>, hand: seq<Card>): BestPlay
    requires Complete(levels)
  {
    if |hand| <= 5 then BestPlay(Some(Score(levels, hand)), None, None)
    else
      var combos := Choose(|hand|, 0, 5);
      FivesInHand(|hand|);
      match Leader(Scores(levels, hand, combos))
      case None => BestPlay(None, Some([]), Some(Complement(|hand|, [])))
      case Some(i) =>
        if i < |combos| then
          var best := combos[i];
          BestPlay(Some(Score(levels, Pick(hand, best))), Some(best), Some(Complement(|hand|, best)))
        else BestPlay(None, Some([]), Some(Complement(|hand|, [])))
  }

  /** Step 3 of `calculateScore`: add every card's chips to the base chips. */
  method AddChips(baseChips: int, cards: seq<Card>) returns (totalChips: int)
    ensures totalChips == baseChips + SumChips(cards)
  {
    totalChips := baseChips;
    var i := 0;
    while i < |cards|
      invariant 0 <= i <= |cards|
      invariant totalChips == baseChips + SumChips(cards[..i])
    {
      assert cards[..i + 1][..i] == cards[..i];
      totalChips := totalChips + CardChips(cards[i]);
      i := i + 1;
    }
    assert cards[..|cards|] == cards;
  }

  /** Step 4 of `calculateScore`: add every card's mult to the base mult. */
  method AddMult(baseMult: int, cards: seq<Card>) returns (totalMult: int)
    ensures totalMult == baseMult + SumMult(cards)
  {
    totalMult := baseMult;
    var i := 0;
    while i < |cards|
      invariant 0 <= i <= |cards|
      invariant totalMult == baseMult + SumMult(cards[..i])
    {
      assert cards[..i + 1][..i] == cards[..i];
      totalMult := totalMult + CardMult(cards[i]);
      i := i + 1;
    }
    assert cards[..|cards|] == cards;
  }

  /** Step 5 of `calculateScore`: multiply every card's xmult, starting from 1. */
  method MultiplyXMult(cards: seq<Card>) returns (xMult: real)
    ensures xMult == ProdXMult(cards)
  {
    xMult := 1.0;
    var i := 0;
    while i < |cards|
      invariant 0 <= i <= |cards|
      invariant xMult == ProdXMult(cards[..i])
    {
      assert cards[..i + 1][..i] == cards[..i];
      xMult := xMult * CardXMult(cards[i]);
      i := i + 1;
    }
    assert cards[..|cards|] == cards;
  }

  /** BestPlayOf for a hand of more than five cards, in terms of the leading position. */
  lemma SearchedPlay(levels: map<HandType, int>, hand: seq<Card>)
    requires Complete(levels) && |hand| > 5
    requires forall c :: c in Choose(|hand|, 0, 5) ==> InHand(c, |hand|)
    ensures var combos := Choose(|hand|, 0, 5);
            var lead := Leader(Scores(levels, hand, combos));
            BestPlayOf(levels, hand)
            == if lead.Some? && lead.value < |combos|
               then BestPlay(Some(Score(levels, Pick(hand, combos[lead.value]))), Some(combos[lead.value]),
                             Some(Complement(|hand|, combos[lead.value])))
               else BestPlay(None, Some([]), Some(Complement(|hand|, [])))
  {
  }

  // ---------------------------------------------------------------------
  // The engine
  // ---------------------------------------------------------------------

  /** `ScoringEngine`: the level of every hand type, updated in place. */
  class ScoringEngine {
    var handLevels: map<HandType, int>

    /** Every hand type has a level. */
    predicate Valid()
      reads this
    {
      Complete(handLevels)
    }

    /** Every hand type starts at level 1. */
    constructor ()
      ensures Valid()
      ensures handLevels == DefaultLevels()
    {
      handLevels := DefaultLevels();
    }

    /** `setHandLevel`: overwrite one level, with no validation of the value. */
    method SetHandLevel(handType: HandType, level: int)
      requires Valid()
      modifies this
      ensures Valid()
      ensures handLevels == old(handLevels)[handType := level]
    {
      handLevels := handLevels[handType := level];
    }

    /** `calculateScore`, with its three accumulation loops. */
    method CalculateScore(cards: seq<Card>) returns (result: ScoreResult)
      requires Valid()
      ensures result == Score(handLevels, cards)
    {
      if |cards| == 0 {
        return ScoreResult(0, HighCard, None);
      }
      var handType := IdentifyHandType(cards);
      var level := handLevels[handType];
      var baseChips := BaseChips(handType, level);
      var baseMult := BaseMult(handType, level);

      var totalChips := AddChips(baseChips, cards);
      var totalMult := AddMult(baseMult, cards);
      var xMult := MultiplyXMult(cards);
      var breakdown := Breakdown(level, baseChips, baseMult, totalChips, totalMult, xMult);
      assert Score(handLevels, cards) == ScoreAs(handLevels, handType, cards);
      ghost var b := ScoreAs(handLevels, handType, cards).breakdown.value;
      assert b.totalChips == totalChips && b.totalMult == totalMult && b.xMult == xMult;
      assert b == breakdown;
      result := ScoreResult(FinalScore(breakdown), handType, Some(breakdown));
    }

    /** `findBestPlay`: the best-so-far loop over every five-card combination. */
    method FindBestPlay(hand: seq<Card>) returns (play: BestPlay)
      requires Valid()
      ensures play == BestPlayOf(handLevels, hand)
    {
      if |hand| <= 5 {
        var whole := CalculateScore(hand);
        return BestPlay(Some(whole), None, None);
      }
      var bestScore := 0;
      var bestCombination: seq<nat> := [];
      var bestResult: Option<ScoreResult> := None;

      var combinations := GetCombinations(|hand|, 5);
      FivesInHand(|hand|);
      ghost var scores := Scores(handLevels, hand, combinations);
      ghost var lead: Option<nat> := None;
      var i := 0;
      while i < |combinations|
        invariant 0 <= i <= |combinations|
        invariant lead == Leader(scores[..i])
        invariant lead.None? ==> bestScore == 0 && bestCombination == [] && bestResult == None
        invariant lead.Some? ==> (lead.value < i
                                  && bestCombination == combinations[lead.value]
                                  && bestResult.Some?
                                  && bestResult.value == Score(handLevels, Pick(hand, bestCombination))
                                  && bestScore == scores[lead.value])
      {
        assert combinations[i] in combinations;
        var result := CalculateScore(Pick(hand, combinations[i]));
        LeaderStep(scores, i);
        if result.score > bestScore {
          bestScore := result.score;
          bestCombination := combinations[i];
          bestResult := Some(result);
          lead := Some(i);
        }
        i := i + 1;
      }
      assert scores[..|combinations|] == scores;
      SearchedPlay(handLevels, hand);
      play := BestPlay(bestResult, Some(bestCombination), Some(Complement(|hand|, bestCombination)));
    }
  }
}
