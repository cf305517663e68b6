/**
 * The k-combination enumerator of src/scoring-engine.js (`getCombinations`
 * and its inner `backtrack`).
 *
 * A combination is represented by the strictly increasing list of the
 * positions it picks, so two cards of equal value stay distinct. Choose is
 * the order in which the backtracking emits combinations; the lemmas show it
 * emits every combination exactly once, C(n, k) of them, in lexicographic
 * order.
 */
module Combinations {

  /** Each combination of `cs`, with `p` put in front. */
  function Prefixed(p: seq<nat>, cs: seq<seq<nat>>): (r: seq<seq<nat>>)
    ensures |r| == |cs|
    ensures forall j :: 0 <= j < |cs| ==> r[j] == p + cs[j]
  {
    seq(|cs|, j requires 0 <= j < |cs| => p + cs[j])
  }

  /**
   * The combinations of `r` positions drawn from [s, n), in the order the
   * backtracking emits them: first those starting with `s`, then the rest.
   */
  function Choose(n: nat, s: nat, r: nat): seq<seq<nat>>
    decreases n - s
  {
    if r == 0 then [[]]
    else if s >= n then []
    else Prefixed([s], Choose(n, s + 1, r - 1)) + Choose(n, s + 1, r)
  }

  /** Strictly increasing positions: every position is picked at most once, in hand order. */
  predicate Increasing(c: seq<nat>) {
    forall i, j :: 0 <= i < j < |c| ==> c[i] < c[j]
  }

  /** `c` picks `r` distinct positions from [s, n), in ascending order. */
  predicate IsCombination(c: seq<nat>, n: nat, s: nat, r: nat) {
    |c| == r && Increasing(c) && forall i :: 0 <= i < |c| ==> s <= c[i] < n
  }

  /** Binomial coefficients by Pascal's rule. */
  function Binom(m: nat, r: nat): nat {
    if r == 0 then 1
    else if m < r then 0
    else Binom(m - 1, r - 1) + Binom(m - 1, r)
  }

  /** `cs` is strictly increasing in lexicographic order. */
  predicate LexSorted(cs: seq<seq<nat>>) {
    forall i, j :: 0 <= i < j < |cs| ==> LexLess(cs[i], cs[j])
  }

  /** `a` comes strictly before `b` in lexicographic order. */
  predicate LexLess(a: seq<nat>, b: seq<nat>) {
    |a| > 0 && |b| > 0 && (a[0] < b[0] || (a[0] == b[0] && LexLess(a[1..], b[1..])))
  }

  // ---------------------------------------------------------------------
  // What the enumeration contains
  // ---------------------------------------------------------------------

  /** Every emitted list is a combination: `r` strictly increasing positions from [s, n). */
  lemma {:induction false} ChooseShape(n: nat, s: nat, r: nat)
    ensures forall c :: c in Choose(n, s, r) ==> IsCombination(c, n, s, r)
    decreases n - s
  {
    if r > 0 && s < n {
      ChooseShape(n, s + 1, r - 1);
      ChooseShape(n, s + 1, r);
      var tails := Choose(n, s + 1, r - 1);
      forall c | c in Prefixed([s], tails) ensures IsCombination(c, n, s, r) {
        var j :| 0 <= j < |tails| && c == [s] + tails[j];
        assert tails[j] in tails;
        assert forall i :: 0 < i < |c| ==> c[i] == tails[j][i - 1];
      }
    }
  }

  /** Dropping the head `s` of a combination from [s, n) leaves a combination from [s + 1, n). */
  lemma TailIsCombination(c: seq<nat>, n: nat, s: nat, r: nat)
    requires IsCombination(c, n, s, r) && r > 0 && c[0] == s
    ensures IsCombination(c[1..], n, s + 1, r - 1)
  {
    var tail := c[1..];
    forall i | 0 <= i < |tail| ensures s + 1 <= tail[i] < n {
      assert tail[i] == c[i + 1] && c[0] < c[i + 1];
    }
    forall i, j | 0 <= i < j < |tail| ensures tail[i] < tail[j] {
      assert tail[i] == c[i + 1] && tail[j] == c[j + 1];
    }
  }

  /** A combination from [s, n) that does not start with `s` draws from [s + 1, n). */
  lemma SkipLow(c: seq<nat>, n: nat, s: nat, r: nat)
    requires IsCombination(c, n, s, r) && r > 0 && c[0] != s
    ensures IsCombination(c, n, s + 1, r)
  {
    forall i | 0 <= i < |c| ensures s + 1 <= c[i] {
      assert i == 0 || c[0] < c[i];
    }
  }

  /** Every combination is emitted. */
  lemma {:induction false} ChooseComplete(n: nat, s: nat, r: nat, c: seq<nat>)
    requires IsCombination(c, n, s, r)
    ensures c in Choose(n, s, r)
    decreases n - s
  {
    if r == 0 {
      assert c == [];
    } else {
      assert s <= c[0] < n;
      var tails := Choose(n, s + 1, r - 1);
      var rest := Choose(n, s + 1, r);
      assert Choose(n, s, r) == Prefixed([s], tails) + rest;
      if c[0] == s {
        TailIsCombination(c, n, s, r);
        ChooseComplete(n, s + 1, r - 1, c[1..]);
        var j :| 0 <= j < |tails| && tails[j] == c[1..];
        assert Prefixed([s], tails)[j] == [s] + c[1..] == c;
      } else {
        SkipLow(c, n, s, r);
        ChooseComplete(n, s + 1, r, c);
      }
    }
  }

  /** The number of emitted combinations is C(n - s, r). */
  lemma {:induction false} ChooseCount(n: nat, s: nat, r: nat)
    requires s <= n
    ensures |Choose(n, s, r)| == Binom(n - s, r)
    decreases n - s
  {
    if r > 0 && s < n {
      ChooseCount(n, s + 1, r - 1);
      ChooseCount(n, s + 1, r);
    }
  }

  /** There are no more than m ways of choosing from m when asking for more than m. */
  lemma {:induction false} BinomTooMany(m: nat, r: nat)
    requires r > m
    ensures Binom(m, r) == 0
  {
    if m > 0 {
      BinomTooMany(m - 1, r - 1);
      BinomTooMany(m - 1, r);
    }
  }

  /** An 8-card hand has 56 five-card plays. */
  lemma EightChooseFive()
    ensures Binom(8, 5) == 56
  {
    assert Binom(7, 4) == 35 && Binom(7, 5) == 21;
  }

  /** Asking for more positions than there are yields no combination at all. */
  lemma ChooseEmptyWhenTooMany(n: nat, k: nat)
    requires k > n
    ensures Choose(n, 0, k) == []
  {
    ChooseCount(n, 0, k);
    BinomTooMany(n, k);
  }

  // ---------------------------------------------------------------------
  // The order of the enumeration
  // ---------------------------------------------------------------------

  /** Putting the same head in front preserves lexicographic order. */
  lemma PrefixedKeepsOrder(x: nat, a: seq<nat>, b: seq<nat>)
    requires LexLess(a, b)
    ensures LexLess([x] + a, [x] + b)
  {
    assert ([x] + a)[1..] == a && ([x] + b)[1..] == b;
  }

  /** Lexicographically ordered lists differ. */
  lemma {:induction false} LexLessDistinct(a: seq<nat>, b: seq<nat>)
    requires LexLess(a, b)
    ensures a != b
  {
    if a[0] == b[0] {
      LexLessDistinct(a[1..], b[1..]);
    }
  }

  /** The emitted combinations are in strictly increasing lexicographic order. */
  lemma {:induction false} ChooseLexOrdered(n: nat, s: nat, r: nat)
    ensures LexSorted(Choose(n, s, r))
    decreases n - s
  {
    if r > 0 && s < n {
      var tails := Choose(n, s + 1, r - 1);
      var rest := Choose(n, s + 1, r);
      ChooseLexOrdered(n, s + 1, r - 1);
      ChooseLexOrdered(n, s + 1, r);
      ChooseShape(n, s + 1, r);
      var heads := Prefixed([s], tails);
      var cs := Choose(n, s, r);
      assert cs == heads + rest;
      assert LexSorted(tails) && LexSorted(rest);
      forall i, j | 0 <= i < j < |cs| ensures LexLess(cs[i], cs[j]) {
        if j < |heads| {
          assert cs[i] == heads[i] == [s] + tails[i];
          assert cs[j] == heads[j] == [s] + tails[j];
          assert LexLess(tails[i], tails[j]);
          PrefixedKeepsOrder(s, tails[i], tails[j]);
        } else if i >= |heads| {
          assert cs[i] == rest[i - |heads|] && cs[j] == rest[j - |heads|];
          assert LexLess(rest[i - |heads|], rest[j - |heads|]);
        } else {
          var later := rest[j - |heads|];
          assert later in rest;
          assert cs[i] == heads[i] == [s] + tails[i];
          assert cs[j] == later && |later| == r;
          assert cs[i][0] == s < later[0];
        }
      }
    }
  }

  /** No combination is emitted twice. */
  lemma ChooseDistinct(n: nat, s: nat, r: nat)
    ensures var cs := Choose(n, s, r);
            forall i, j :: 0 <= i < j < |cs| ==> cs[i] != cs[j]
  {
    ChooseLexOrdered(n, s, r);
    var cs := Choose(n, s, r);
    forall i, j | 0 <= i < j < |cs| ensures cs[i] != cs[j] {
      LexLessDistinct(cs[i], cs[j]);
    }
  }

  // ---------------------------------------------------------------------
  // The backtracking enumerator
  // ---------------------------------------------------------------------

  /** Putting `p` in front distributes over concatenation and composes with `[x]`. */
  lemma PrefixedSplit(p: seq<nat>, x: nat, tails: seq<seq<nat>>, rest: seq<seq<nat>>)
    ensures Prefixed(p, Prefixed([x], tails) + rest) == Prefixed(p + [x], tails) + Prefixed(p, rest)
  {
    var lhs := Prefixed(p, Prefixed([x], tails) + rest);
    var rhs := Prefixed(p + [x], tails) + Prefixed(p, rest);
    assert |lhs| == |rhs|;
    forall j | 0 <= j < |lhs| ensures lhs[j] == rhs[j] {
      if j < |tails| {
        assert lhs[j] == p + ([x] + tails[j]);
      }
    }
  }

  /**
   * The state of `getCombinations`' closure: the `current` buffer that
   * `backtrack` pushes to and pops from, and the `combinations` list it
   * appends snapshots to.
   */
  class Backtracker {
    const n: nat
    const k: nat
    var current: seq<nat>
    var combinations: seq<seq<nat>>

    constructor (n: nat, k: nat)
      ensures this.n == n && this.k == k
      ensures current == [] && combinations == []
    {
      this.n := n;
      this.k := k;
      current := [];
      combinations := [];
    }

    /**
     * `backtrack(start, current)`: append every completion of `current` by
     * positions from [start, n), in emission order, and leave `current` as
     * it was.
     */
    method Backtrack(start: nat)
      requires |current| <= k
      modifies this
      ensures current == old(current)
      ensures combinations == old(combinations) + Prefixed(old(current), Choose(n, start, k - |old(current)|))
      decreases n - start
    {
      if |current| == k {
        combinations := combinations + [current];
        assert Choose(n, start, 0) == [[]] && current + [] == current;
        assert [current] == Prefixed(current, Choose(n, start, 0));
        return;
      }
      var r := k - |current|;
      var i := start;
      while i < n
        invariant start <= i
        invariant current == old(current)
        invariant combinations + Prefixed(current, Choose(n, i, r))
               == old(combinations) + Prefixed(current, Choose(n, start, r))
      {
        ghost var before := combinations;
        PrefixedSplit(current, i, Choose(n, i + 1, r - 1), Choose(n, i + 1, r));
        current := current + [i];
        Backtrack(i + 1);
        current := current[..|current| - 1];
        assert combinations == before + Prefixed(old(current) + [i], Choose(n, i + 1, r - 1));
        i := i + 1;
      }
    }
  }

  /** `getCombinations`: run the backtracking from position 0 with an empty buffer. */
  method GetCombinations(n: nat, k: nat) returns (combinations: seq<seq<nat>>)
    ensures combinations == Choose(n, 0, k)
  {
    var b := new Backtracker(n, k);
    b.Backtrack(0);
    combinations := b.combinations;
    var all := Choose(n, 0, k);
    assert forall j :: 0 <= j < |all| ==> [] + all[j] == all[j];
    assert Prefixed([], all) == all;
  }
}
