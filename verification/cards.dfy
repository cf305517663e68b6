/**
 * Playing cards and their individual scoring contributions
 * (the `Card` class and the `RANK_CHIPS` table of src/scoring-engine.js).
 *
 * Ranks and suits are closed enumerations, so the lookup of an unknown rank,
 * which yields NaN in the source, cannot be written here.
 */
module Cards {
  import opened Wrappers

  datatype Rank = Two | Three | Four | Five | Six | Seven | Eight | Nine | Ten
                | Jack | Queen | King | Ace

  datatype Suit = Spades | Hearts | Diamonds | Clubs

  datatype Enhancement = Bonus | Mult | Wild | Glass | Steel | Stone | Gold | Lucky

  datatype Seal = RedSeal | GoldSeal | BlueSeal | PurpleSeal

  datatype Edition = Foil | Holographic | Polychrome

  /** A card; every modifier slot is optional (`null` in the source). */
  datatype Card = Card(rank: Rank, suit: Suit, enhancement: Option<Enhancement>,
                       seal: Option<Seal>, edition: Option<Edition>)

  /** A card without any modifier. */
  function Plain(rank: Rank, suit: Suit): (c: Card)
    ensures c.rank == rank && c.suit == suit
    ensures c.enhancement == None && c.seal == None && c.edition == None
  {
    Card(rank, suit, None, None, None)
  }

  /** The fixed rank-to-chip table: numerals score their face value, J/Q/K ten, A eleven. */
  function RankChips(r: Rank): (chips: nat)
    ensures 2 <= chips <= 11
    ensures chips == 11 <==> r == Ace
    ensures r in {Jack, Queen, King} ==> chips == 10
  {
    match r
    case Two => 2
    case Three => 3
    case Four => 4
    case Five => 5
    case Six => 6
    case Seven => 7
    case Eight => 8
    case Nine => 9
    case Ten => 10
    case Jack => 10
    case Queen => 10
    case King => 10
    case Ace => 11
  }

  /** `Card.getChips`: rank chips, +30 for Bonus, +50 for Stone, +50 for Foil. */
  function CardChips(c: Card): (chips: nat)
    ensures chips >= RankChips(c.rank)
    ensures chips <= RankChips(c.rank) + 100
  {
    var chips := RankChips(c.rank);
    var chips := if c.enhancement == Some(Bonus) then chips + 30 else chips;
    var chips := if c.enhancement == Some(Stone) then chips + 50 else chips;
    if c.edition == Some(Foil) then chips + 50 else chips
  }

  /** `Card.getMult`: +4 for the Mult enhancement, +10 for Holographic. */
  function CardMult(c: Card): (mult: nat)
    ensures mult in {0, 4, 10, 14}
  {
    var mult := if c.enhancement == Some(Mult) then 4 else 0;
    if c.edition == Some(Holographic) then mult + 10 else mult
  }

  /** `Card.getXMult`: 1, doubled for Glass, times 1.5 for Steel and for Polychrome. */
  function CardXMult(c: Card): (x: real)
    ensures x >= 1.0
    ensures x in {1.0, 1.5, 2.0, 2.25, 3.0}
  {
    var x := 1.0;
    var x := if c.enhancement == Some(Glass) then x * 2.0 else x;
    var x := if c.enhancement == Some(Steel) then x * 1.5 else x;
    if c.edition == Some(Polychrome) then x * 1.5 else x
  }

  /** Whether an enhancement is one of those the source declares but never reads. */
  predicate Reserved(e: Option<Enhancement>) {
    e == None || e == Some(Wild) || e == Some(Gold) || e == Some(Lucky)
  }

  /**
   * Seals and the Wild, Gold and Lucky enhancements have no scoring effect:
   * such a card contributes exactly what the plain card of its rank and
   * suit with the same edition contributes.
   */
  lemma ReservedModifiersNeutral(c: Card)
    requires Reserved(c.enhancement)
    ensures var p := Card(c.rank, c.suit, None, None, c.edition);
            CardChips(c) == CardChips(p) && CardMult(c) == CardMult(p) && CardXMult(c) == CardXMult(p)
  {
  }

  /** Stone still counts its rank chips, on top of its own 50. */
  lemma StoneKeepsRankChips(c: Card)
    requires c.enhancement == Some(Stone)
    ensures CardChips(c) == RankChips(c.rank) + 50 + (if c.edition == Some(Foil) then 50 else 0)
  {
  }

  /** Modifiers of a plain card are neutral: rank chips, no mult, xmult 1. */
  lemma PlainIsNeutral(r: Rank, s: Suit)
    ensures CardChips(Plain(r, s)) == RankChips(r)
    ensures CardMult(Plain(r, s)) == 0
    ensures CardXMult(Plain(r, s)) == 1.0
  {
  }
}
