/**
 * The hand classifier of src/scoring-engine.js: `identifyHandType` and
 * `checkStraight`.
 *
 * Only the first five cards are looked at. Rank and suit frequencies are
 * counted, the two largest rank frequencies are read off, and a fixed
 * first-match precedence picks one of the twelve hand types. A straight is
 * five ranks at consecutive positions of the order A,2,3,...,K, where the
 * Ace sits at position 0 only.
 */
module Classifier {
  import opened Cards
  import opened HandTypes

  /** `rankOrder.indexOf(r)`: the Ace is found at position 0, never at 13. */
  function StraightIndex(r: Rank): (i: nat)
    ensures i < 13
    ensures i == 0 <==> r == Ace
  {
    match r
    case Ace => 0
    case Two => 1
    case Three => 2
    case Four => 3
    case Five => 4
    case Six => 5
    case Seven => 6
    case Eight => 7
    case Nine => 8
    case Ten => 9
    case Jack => 10
    case Queen => 11
    case King => 12
  }

  /** The rank at a position of the straight order. */
  function RankAt(i: nat): (r: Rank)
    requires i < 13
    ensures StraightIndex(r) == i
  {
    if i == 0 then Ace else if i == 1 then Two else if i == 2 then Three
    else if i == 3 then Four else if i == 4 then Five else if i == 5 then Six
    else if i == 6 then Seven else if i == 7 then Eight else if i == 8 then Nine
    else if i == 9 then Ten else if i == 10 then Jack else if i == 11 then Queen
    else King
  }

  lemma RankAtIndex(r: Rank)
    ensures RankAt(StraightIndex(r)) == r
  {
  }

  /** The cards the classifier looks at: the first five. */
  function Played(cards: seq<Card>): (p: seq<Card>)
    ensures |p| <= 5 && p <= cards
    ensures |cards| <= 5 ==> p == cards
  {
    if |cards| > 5 then cards[..5] else cards
  }

  function Ranks(cards: seq<Card>): (rs: seq<Rank>)
    ensures |rs| == |cards|
    ensures forall i :: 0 <= i < |cards| ==> rs[i] == cards[i].rank
  {
    seq(|cards|, i requires 0 <= i < |cards| => cards[i].rank)
  }

  /** How many of the cards have rank `r`. */
  function RankCount(cards: seq<Card>, r: Rank): (n: nat)
    ensures n <= |cards|
  {
    if |cards| == 0 then 0
    else RankCount(cards[..|cards| - 1], r) + (if cards[|cards| - 1].rank == r then 1 else 0)
  }

  /** How many of the cards have suit `s`. */
  function SuitCount(cards: seq<Card>, s: Suit): (n: nat)
    ensures n <= |cards|
  {
    if |cards| == 0 then 0
    else SuitCount(cards[..|cards| - 1], s) + (if cards[|cards| - 1].suit == s then 1 else 0)
  }

  /** The rank frequencies, listed in straight order (0 for a rank that does not occur). */
  function RankCounts(cards: seq<Card>): (v: seq<nat>)
    ensures |v| == 13
    ensures forall k :: 0 <= k < 13 ==> v[k] == RankCount(cards, RankAt(k))
  {
    seq(13, k requires 0 <= k < 13 => RankCount(cards, RankAt(k)))
  }

  /** The first two entries of a list of frequencies sorted in descending order. */
  datatype Leading = Leading(first: nat, second: nat)

  /**
   * `counts[0]` and `counts[1]` of the descending sort of the rank
   * frequencies, computed as one pass that keeps the two largest values seen.
   * A missing second entry (`undefined` in the source, only ever compared
   * with 2) is 0 here. TopTwoIsSortedHead characterises the result without
   * reference to this pass.
   */
  function TopTwo(v: seq<nat>): (t: Leading)
    ensures t.second <= t.first
  {
    if |v| == 0 then Leading(0, 0)
    else
      var prev := TopTwo(v[..|v| - 1]);
      var x := v[|v| - 1];
      if x > prev.first then Leading(x, prev.first)
      else if x > prev.second then Leading(prev.first, x)
      else prev
  }

  /**
   * The head of a descending sort: `first` is a maximum found at some
   * position, `second` is found at another position, and no two distinct
   * positions both exceed `second`.
   */
  lemma {:induction false} TopTwoIsSortedHead(v: seq<nat>)
    ensures forall i :: 0 <= i < |v| ==> v[i] <= TopTwo(v).first
    ensures forall i, j :: 0 <= i < |v| && 0 <= j < |v| && i != j ==> v[i] <= TopTwo(v).second || v[j] <= TopTwo(v).second
    ensures |v| > 0 ==> exists i :: 0 <= i < |v| && v[i] == TopTwo(v).first
    ensures |v| > 1 ==> exists i, j :: 0 <= i < |v| && 0 <= j < |v| && i != j && v[i] == TopTwo(v).first && v[j] == TopTwo(v).second
  {
    if |v| > 0 {
      var w := v[..|v| - 1];
      TopTwoIsSortedHead(w);
      assert forall i :: 0 <= i < |w| ==> v[i] == w[i];
      if |v| == 1 {
        assert v[0] == TopTwo(v).first;
      } else if |v| == 2 {
        assert TopTwo(w) == (if v[0] > 0 then Leading(v[0], 0) else Leading(0, 0));
      }
    }
  }

  /** `isFlush`: some suit occurs at least five times. */
  predicate IsFlush(cards: seq<Card>) {
    SuitCount(cards, Spades) >= 5 || SuitCount(cards, Hearts) >= 5
    || SuitCount(cards, Diamonds) >= 5 || SuitCount(cards, Clubs) >= 5
  }

  /** The distinct straight-order positions of the given ranks, duplicates dropped. */
  function RankIndices(ranks: seq<Rank>): set<nat> {
    set r | r in ranks :: StraightIndex(r)
  }

  /** The members of `present` from `lo` up to 12, in ascending order (the sorted unique ranks). */
  function Ascend(present: set<nat>, lo: nat): seq<nat>
    decreases 13 - lo
  {
    if lo >= 13 then []
    else (if lo in present then [lo] else []) + Ascend(present, lo + 1)
  }

  /** `u` lists exactly the members of `present` in [lo, 13), strictly ascending. */
  ghost predicate ListsInOrder(u: seq<nat>, present: set<nat>, lo: nat) {
    && (forall i :: 0 <= i < |u| ==> u[i] in present && lo <= u[i] < 13)
    && (forall i, j :: 0 <= i < j < |u| ==> u[i] < u[j])
    && (forall x :: x in present && lo <= x < 13 ==> x in u)
  }

  lemma {:induction false} AscendListsInOrder(present: set<nat>, lo: nat)
    ensures ListsInOrder(Ascend(present, lo), present, lo)
    decreases 13 - lo
  {
    if lo < 13 {
      AscendListsInOrder(present, lo + 1);
      var head := if lo in present then [lo] else [];
      var rest := Ascend(present, lo + 1);
      var u := Ascend(present, lo);
      assert u == head + rest;
      forall i | 0 <= i < |u| ensures u[i] in present && lo <= u[i] < 13 {
        if i >= |head| {
          assert u[i] == rest[i - |head|];
        }
      }
      forall i, j | 0 <= i < j < |u| ensures u[i] < u[j] {
        if i >= |head| {
          assert u[i] == rest[i - |head|];
        }
        assert u[j] == rest[j - |head|];
      }
      forall x | x in present && lo <= x < 13 ensures x in u {
        if x != lo {
          assert x in rest;
        }
      }
    }
  }

  /** The sorted unique position after index `m` is exactly one above it. */
  predicate StepUp(u: seq<nat>, m: nat)
    requires m + 1 < |u|
  {
    u[m + 1] as int - u[m] as int == 1
  }

  /** The first `j` steps after index `i` each go up by exactly one. */
  predicate StepsUp(u: seq<nat>, i: nat, j: nat)
    requires i + j < |u|
  {
    j == 0 || (StepsUp(u, i, j - 1) && StepUp(u, i + j - 1))
  }

  /** A step that does not go up by one breaks every run that covers it. */
  lemma {:induction false} BrokenStepBreaksRun(u: seq<nat>, i: nat, n: nat, j: nat)
    requires i + n < |u| && j < n
    requires !StepUp(u, i + j)
    ensures !StepsUp(u, i, n)
  {
    if j < n - 1 {
      BrokenStepBreaksRun(u, i, n - 1, j);
    }
  }

  /** The five sorted unique positions starting at `i` step up by exactly one each. */
  predicate RunAt(u: seq<nat>, i: nat)
    requires i + 5 <= |u|
  {
    StepsUp(u, i, 4)
  }

  /** `checkStraight` as the source computes it: some window of five sorted unique positions is a run. */
  predicate StraightRanks(ranks: seq<Rank>) {
    var u := Ascend(RankIndices(ranks), 0);
    |u| >= 5 && HasRun(u)
  }

  /** Five consecutive positions `lo` .. `lo + 4` all occur. */
  predicate RunFrom(present: set<nat>, lo: nat) {
    lo in present && lo + 1 in present && lo + 2 in present && lo + 3 in present && lo + 4 in present
  }

  /**
   * `identifyHandType`: first match wins, in the order Flush Five, Five of a
   * Kind, Flush House, Straight Flush, Four of a Kind, Full House, Flush,
   * Straight, Three of a Kind, Two Pair, Pair, High Card.
   */
  function Classify(cards: seq<Card>): HandType {
    if |cards| == 0 then HighCard
    else
      var p := Played(cards);
      Decide(TopTwo(RankCounts(p)), IsFlush(p), StraightRanks(Ranks(p)))
  }

  /** The precedence chain, given the two largest rank counts and the flush and straight tests. */
  function Decide(counts: Leading, flush: bool, straight: bool): HandType {
    if counts.first == 5 && flush then FlushFive
    else if counts.first == 5 then FiveOfAKind
    else if counts.first == 3 && counts.second == 2 && flush then FlushHouse
    else if straight && flush then StraightFlush
    else if counts.first == 4 then FourOfAKind
    else if counts.first == 3 && counts.second == 2 then FullHouse
    else if flush then Flush
    else if straight then Straight
    else if counts.first == 3 then ThreeOfAKind
    else if counts.first == 2 && counts.second == 2 then TwoPair
    else if counts.first == 2 then Pair
    else HighCard
  }

  // ---------------------------------------------------------------------
  // The imperative classifier, proved against Classify.
  // ---------------------------------------------------------------------

  /** The distinct straight positions of the ranks, deduplicated and sorted ascending. */
  method SortedUniqueRanks(ranks: seq<Rank>) returns (unique: seq<nat>)
    ensures unique == Ascend(RankIndices(ranks), 0)
  {
    var present: set<nat> := {};
    var n := 0;
    while n < |ranks|
      invariant 0 <= n <= |ranks|
      invariant present == RankIndices(ranks[..n])
    {
      assert ranks[..n + 1] == ranks[..n] + [ranks[n]];
      present := present + {StraightIndex(ranks[n])};
      n := n + 1;
    }
    assert ranks[..n] == ranks;
    unique := SortPositions(present);
  }

  /** Moving position `k` from the pending part of the sort to its finished prefix. */
  lemma AscendPeel(present: set<nat>, k: nat, done: seq<nat>)
    requires k < 13 && done + Ascend(present, k) == Ascend(present, 0)
    ensures (done + (if k in present then [k] else [])) + Ascend(present, k + 1) == Ascend(present, 0)
  {
    var step := if k in present then [k] else [];
    assert Ascend(present, k) == step + Ascend(present, k + 1);
    AppendAssociates(done, step, Ascend(present, k + 1));
  }

  /** The empty sequence is the unit of concatenation. */
  lemma AppendNothing<T>(a: seq<T>)
    ensures a + [] == a && [] + a == a
  {
  }

  /** Concatenation regroups freely. */
  lemma AppendAssociates<T>(a: seq<T>, b: seq<T>, c: seq<T>)
    ensures (a + b) + c == a + (b + c)
  {
  }

  /** The ascending sort of a set of straight positions, one position at a time. */
  method SortPositions(present: set<nat>) returns (unique: seq<nat>)
    ensures unique == Ascend(present, 0)
  {
    unique := [];
    AppendNothing(Ascend(present, 0));
    var k := 0;
    while k < 13
      invariant 0 <= k <= 13
      invariant unique + Ascend(present, k) == Ascend(present, 0)
    {
      AscendPeel(present, k, unique);
      unique := unique + (if k in present then [k] else []);
      k := k + 1;
    }
    AppendNothing(unique);
  }

  /** Some window of five consecutive entries of `u` is a run. */
  predicate HasRun(u: seq<nat>) {
    exists i: nat :: i + 5 <= |u| && RunAt(u, i)
  }

  /** `checkStraight`: deduplicate, sort in straight order, scan every window of five. */
  method CheckStraight(ranks: seq<Rank>) returns (isStraight: bool)
    ensures isStraight == StraightRanks(ranks)
  {
    var unique := SortedUniqueRanks(ranks);
    if |unique| < 5 {
      return false;
    }
    isStraight := ScanWindows(unique);
  }

  /** The window loop of `checkStraight`, with its early `break` and `return`. */
  method ScanWindows(unique: seq<nat>) returns (found: bool)
    requires |unique| >= 5
    ensures found == HasRun(unique)
  {
    var i := 0;
    while i + 5 <= |unique|
      invariant i + 4 <= |unique|
      invariant forall i': nat :: i' < i ==> !RunAt(unique, i')
    {
      var consecutive := true;
      var j := 0;
      while j < 4
        invariant 0 <= j <= 4
        invariant consecutive
        invariant StepsUp(unique, i, j)
      {
        if unique[i + j + 1] as int - unique[i + j] as int != 1 {
          BrokenStepBreaksRun(unique, i, 4, j);
          consecutive := false;
          break;
        }
        j := j + 1;
      }
      if consecutive {
        assert RunAt(unique, i);
        return true;
      }
      i := i + 1;
    }
    return false;
  }

  /** The count a tally map records for a key, 0 for a key never tallied. */
  function Lookup<K>(counts: map<K, nat>, k: K): nat {
    if k in counts then counts[k] else 0
  }

  /** One pass over the cards, adding one to the tally of each card's rank. */
  method CountRanks(cards: seq<Card>) returns (rankCounts: map<Rank, nat>)
    ensures forall r :: Lookup(rankCounts, r) == RankCount(cards, r)
  {
    rankCounts := map[];
    var i := 0;
    while i < |cards|
      invariant 0 <= i <= |cards|
      invariant forall r :: Lookup(rankCounts, r) == RankCount(cards[..i], r)
    {
      assert cards[..i + 1][..i] == cards[..i];
      var r := cards[i].rank;
      rankCounts := rankCounts[r := Lookup(rankCounts, r) + 1];
      i := i + 1;
    }
    assert cards[..i] == cards;
  }

  /** One pass over the cards, adding one to the tally of each card's suit. */
  method CountSuits(cards: seq<Card>) returns (suitCounts: map<Suit, nat>)
    ensures forall s :: Lookup(suitCounts, s) == SuitCount(cards, s)
  {
    suitCounts := map[];
    var i := 0;
    while i < |cards|
      invariant 0 <= i <= |cards|
      invariant forall s :: Lookup(suitCounts, s) == SuitCount(cards[..i], s)
    {
      assert cards[..i + 1][..i] == cards[..i];
      var s := cards[i].suit;
      suitCounts := suitCounts[s := Lookup(suitCounts, s) + 1];
      i := i + 1;
    }
    assert cards[..i] == cards;
  }

  /** The two largest rank tallies: the first two of the tallies sorted in descending order. */
  method LeadingCounts(cards: seq<Card>, rankCounts: map<Rank, nat>) returns (first: nat, second: nat)
    requires forall r :: Lookup(rankCounts, r) == RankCount(cards, r)
    ensures Leading(first, second) == TopTwo(RankCounts(cards))
  {
    ghost var v := RankCounts(cards);
    first, second := 0, 0;
    var k := 0;
    while k < 13
      invariant 0 <= k <= 13
      invariant Leading(first, second) == TopTwo(v[..k])
    {
      assert v[..k + 1][..k] == v[..k];
      var c := Lookup(rankCounts, RankAt(k));
      if c > first {
        first, second := c, first;
      } else if c > second {
        second := c;
      }
      k := k + 1;
    }
    assert v[..k] == v;
  }

  /** `identifyHandType`: count frequencies with dictionaries, then apply the precedence chain. */
  method IdentifyHandType(cards: seq<Card>) returns (handType: HandType)
    ensures handType == Classify(cards)
  {
    if |cards| == 0 {
      return HighCard;
    }
    var played := if |cards| > 5 then cards[..5] else cards;
    assert played == Played(cards);
    var rankCounts := CountRanks(played);
    var suitCounts := CountSuits(played);
    var first, second := LeadingCounts(played, rankCounts);
    // A flush: some suit is tallied at least five times.
    var isFlush := exists s | s in suitCounts :: suitCounts[s] >= 5;
    assert isFlush == IsFlush(played) by {
      if isFlush {
        var s :| s in suitCounts && suitCounts[s] >= 5;
        assert Lookup(suitCounts, s) == SuitCount(played, s);
        assert s == Spades || s == Hearts || s == Diamonds || s == Clubs;
      }
      assert Lookup(suitCounts, Spades) == SuitCount(played, Spades);
      assert Lookup(suitCounts, Hearts) == SuitCount(played, Hearts);
      assert Lookup(suitCounts, Diamonds) == SuitCount(played, Diamonds);
      assert Lookup(suitCounts, Clubs) == SuitCount(played, Clubs);
    }
    var isStraight := CheckStraight(Ranks(played));

    if first == 5 && isFlush { return FlushFive; }
    if first == 5 { return FiveOfAKind; }
    if first == 3 && second == 2 && isFlush { return FlushHouse; }
    if isStraight && isFlush { return StraightFlush; }
    if first == 4 { return FourOfAKind; }
    if first == 3 && second == 2 { return FullHouse; }
    if isFlush { return Flush; }
    if isStraight { return Straight; }
    if first == 3 { return ThreeOfAKind; }
    if first == 2 && second == 2 { return TwoPair; }
    if first == 2 { return Pair; }
    return HighCard;
  }
}
