/**
 * The twelve hand types, their level-1 base values and per-level increments
 * (the `BASE_HANDS` table of src/scoring-engine.js), and the level table
 * a scoring engine owns.
 */
module HandTypes {

  datatype HandType = HighCard | Pair | TwoPair | ThreeOfAKind | Straight | Flush
                    | FullHouse | FourOfAKind | StraightFlush | FiveOfAKind
                    | FlushHouse | FlushFive

  /** One row of the base table. */
  datatype HandBase = HandBase(chips: nat, mult: nat, chipsPerLevel: nat, multPerLevel: nat)

  function BaseHand(t: HandType): (b: HandBase)
    ensures b.chips >= 5 && b.mult >= 1
    ensures b.chipsPerLevel >= 10 && b.multPerLevel >= 1
  {
    match t
    case HighCard => HandBase(5, 1, 10, 1)
    case Pair => HandBase(10, 2, 15, 1)
    case TwoPair => HandBase(20, 2, 20, 1)
    case ThreeOfAKind => HandBase(30, 3, 20, 2)
    case Straight => HandBase(30, 4, 30, 3)
    case Flush => HandBase(35, 4, 15, 2)
    case FullHouse => HandBase(40, 4, 25, 2)
    case FourOfAKind => HandBase(60, 7, 30, 3)
    case StraightFlush => HandBase(100, 8, 40, 3)
    case FiveOfAKind => HandBase(120, 12, 35, 3)
    case FlushHouse => HandBase(140, 14, 40, 3)
    case FlushFive => HandBase(160, 16, 40, 3)
  }

  /** Base chips of a hand type at a level: level-1 chips plus one increment per level above 1. */
  function BaseChips(t: HandType, level: int): int {
    BaseHand(t).chips + BaseHand(t).chipsPerLevel * (level - 1)
  }

  /** Base mult of a hand type at a level. */
  function BaseMult(t: HandType, level: int): int {
    BaseHand(t).mult + BaseHand(t).multPerLevel * (level - 1)
  }

  /** Every hand type has an entry (the engine's constructor fills all twelve). */
  predicate Complete(levels: map<HandType, int>) {
    forall t: HandType :: t in levels
  }

  /** Every level is at least 1. The setter does not enforce this. */
  predicate LevelsValid(levels: map<HandType, int>) {
    Complete(levels) && forall t: HandType :: levels[t] >= 1
  }

  /** The table a fresh engine starts with: every hand type at level 1. */
  function DefaultLevels(): (levels: map<HandType, int>)
    ensures LevelsValid(levels)
    ensures forall t: HandType :: levels[t] == 1
  {
    AllHandTypesListed();
    map t: HandType | t in AllHandTypes() :: 1
  }

  function AllHandTypes(): set<HandType> {
    {HighCard, Pair, TwoPair, ThreeOfAKind, Straight, Flush, FullHouse, FourOfAKind,
     StraightFlush, FiveOfAKind, FlushHouse, FlushFive}
  }

  lemma AllHandTypesListed()
    ensures forall t: HandType :: t in AllHandTypes()
  {
    forall t: HandType ensures t in AllHandTypes() {
      match t
      case HighCard => case Pair => case TwoPair => case ThreeOfAKind =>
      case Straight => case Flush => case FullHouse => case FourOfAKind =>
      case StraightFlush => case FiveOfAKind => case FlushHouse => case FlushFive =>
    }
  }

  /** Raising a level strictly raises both base chips and base mult, for every hand type. */
  lemma {:induction false} BaseStrictlyIncreasing(t: HandType, lo: int, hi: int)
    requires lo < hi
    ensures BaseChips(t, lo) < BaseChips(t, hi)
    ensures BaseMult(t, lo) < BaseMult(t, hi)
  {
    var b := BaseHand(t);
    assert b.chipsPerLevel * (hi - 1) - b.chipsPerLevel * (lo - 1) == b.chipsPerLevel * (hi - lo);
    assert b.multPerLevel * (hi - 1) - b.multPerLevel * (lo - 1) == b.multPerLevel * (hi - lo);
  }

  /** At a valid level the base values are at least their level-1 values. */
  lemma {:induction false} BaseAtValidLevel(t: HandType, level: int)
    requires level >= 1
    ensures BaseChips(t, level) >= BaseHand(t).chips >= 5
    ensures BaseMult(t, level) >= BaseHand(t).mult >= 1
  {
    var b := BaseHand(t);
    assert b.chipsPerLevel * (level - 1) >= 0;
    assert b.multPerLevel * (level - 1) >= 0;
  }
}
