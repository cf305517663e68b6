/**
 * The sort src/recommendation-engine.js asks of the built-in array sort,
 * with a comparator that orders by an integer key from largest to smallest.
 * The built-in sort is stable, so elements of equal key keep their relative
 * order.
 *
 * It is modelled as an insertion sort that places each element after every
 * earlier element whose key is at least its own; the lemmas show the result
 * is descending, a permutation of the input, and led by the first element of
 * the largest key.
 */
module Sorting {

  /** The keys of `s` never increase from left to right. */
  predicate Descending<T>(s: seq<T>, key: T -> int) {
    forall i, j :: 0 <= i < j < |s| ==> key(s[i]) >= key(s[j])
  }

  /** `x` placed after the leading elements of `s` whose key is at least its own. */
  function Insert<T>(x: T, s: seq<T>, key: T -> int): (r: seq<T>)
    ensures |r| == |s| + 1
  {
    if |s| == 0 || key(s[0]) < key(x) then [x] + s
    else [s[0]] + Insert(x, s[1..], key)
  }

  /** The elements of `xs`, each inserted in turn into the sorted list of those before it. */
  function SortDesc<T>(xs: seq<T>, key: T -> int): (r: seq<T>)
    ensures |r| == |xs|
  {
    if |xs| == 0 then [] else Insert(xs[|xs| - 1], SortDesc(xs[..|xs| - 1], key), key)
  }

  /** The first position of the largest key in a non-empty sequence. */
  function FirstTop<T>(xs: seq<T>, key: T -> int): (i: nat)
    requires |xs| > 0
    ensures i < |xs|
  {
    if |xs| == 1 then 0
    else
      var i := FirstTop(xs[..|xs| - 1], key);
      if key(xs[|xs| - 1]) > key(xs[i]) then |xs| - 1 else i
  }

  /** FirstTop is a position of the largest key, and every earlier key is smaller. */
  lemma {:induction false} FirstTopIsFirstMaximum<T>(xs: seq<T>, key: T -> int)
    requires |xs| > 0
    ensures var i := FirstTop(xs, key);
            && (forall j :: 0 <= j < |xs| ==> key(xs[j]) <= key(xs[i]))
            && (forall j :: 0 <= j < i ==> key(xs[j]) < key(xs[i]))
  {
    if |xs| > 1 {
      var init := xs[..|xs| - 1];
      FirstTopIsFirstMaximum(init, key);
      assert forall j :: 0 <= j < |init| ==> init[j] == xs[j];
    }
  }

  /** A position of the largest key with only smaller keys before it is the one FirstTop finds. */
  lemma FirstTopUnique<T>(xs: seq<T>, key: T -> int, i: nat)
    requires i < |xs|
    requires forall j :: 0 <= j < |xs| ==> key(xs[j]) <= key(xs[i])
    requires forall j :: 0 <= j < i ==> key(xs[j]) < key(xs[i])
    ensures FirstTop(xs, key) == i
  {
    FirstTopIsFirstMaximum(xs, key);
  }

  /** Inserting adds exactly one occurrence of `x`. */
  lemma {:induction false} InsertPermutes<T>(x: T, s: seq<T>, key: T -> int)
    ensures multiset(Insert(x, s, key)) == multiset(s) + multiset{x}
  {
    if |s| > 0 && key(s[0]) >= key(x) {
      InsertPermutes(x, s[1..], key);
      assert s == [s[0]] + s[1..];
    }
  }

  /** Inserting into a descending list keeps it descending. */
  lemma {:induction false} InsertKeepsDescending<T>(x: T, s: seq<T>, key: T -> int)
    requires Descending(s, key)
    ensures Descending(Insert(x, s, key), key)
    ensures |s| > 0 ==> Insert(x, s, key)[0] == (if key(s[0]) < key(x) then x else s[0])
  {
    if |s| > 0 && key(s[0]) >= key(x) {
      var rest := s[1..];
      InsertKeepsDescending(x, rest, key);
      var r := Insert(x, s, key);
      var tail := Insert(x, rest, key);
      assert r == [s[0]] + tail;
      InsertPermutes(x, rest, key);
      forall j | 0 <= j < |tail| ensures key(s[0]) >= key(tail[j]) {
        assert tail[j] in multiset(tail);
        assert tail[j] in multiset(rest) + multiset{x};
        if tail[j] != x {
          assert tail[j] in rest;
          var m :| 0 <= m < |rest| && rest[m] == tail[j];
          assert rest[m] == s[m + 1];
        }
      }
    }
  }

  /** The sorted list has the same elements as the input. */
  lemma {:induction false} SortDescPermutes<T>(xs: seq<T>, key: T -> int)
    ensures multiset(SortDesc(xs, key)) == multiset(xs)
  {
    if |xs| > 0 {
      var init := xs[..|xs| - 1];
      SortDescPermutes(init, key);
      InsertPermutes(xs[|xs| - 1], SortDesc(init, key), key);
      assert xs == init + [xs[|xs| - 1]];
    }
  }

  /**
   * The sorted list is descending, and it starts with the first element of
   * the largest key: ties keep their input order.
   */
  lemma {:induction false} SortDescOrders<T>(xs: seq<T>, key: T -> int)
    ensures Descending(SortDesc(xs, key), key)
    ensures |xs| > 0 ==> SortDesc(xs, key)[0] == xs[FirstTop(xs, key)]
  {
    if |xs| > 0 {
      var init := xs[..|xs| - 1];
      SortDescOrders(init, key);
      InsertKeepsDescending(xs[|xs| - 1], SortDesc(init, key), key);
      if |init| > 0 {
        assert init[FirstTop(init, key)] == xs[FirstTop(init, key)];
      }
    }
  }
}
