/**
 * The `nameSort` comparator of getChildren and the in-place
 * `Array.prototype.sort` it is handed to.
 */
module Sorting {
  import opened JsStrings
  import opened Records

  /**
   * `x > y` on two property values.  Two strings compare by code units; a
   * comparison with `undefined` on either side converts it to NaN and is
   * false.
   */
  predicate ValueGreater(x: Value, y: Value)
    ensures ValueGreater(x, y) ==> x.Str? && y.Str? && !Greater(y.text, x.text)
  {
    x.Str? && y.Str? && (GreaterAsymmetric(x.text, y.text); Greater(x.text, y.text))
  }

  /** The comparator: 1 when one's name is greater than two's, otherwise -1. */
  function NameSort(one: Record, two: Record): (r: int)
    ensures r == 1 || r == -1
  {
    if ValueGreater(Get(one, NAME), Get(two, NAME)) then 1 else -1
  }

  /** The comparator never asks for a swap in both directions. */
  lemma NameSortAsymmetric(one: Record, two: Record)
    ensures NameSort(one, two) == 1 ==> NameSort(two, one) == -1
  {
    if NameSort(one, two) == 1 {
      GreaterAsymmetric(Get(one, NAME).text, Get(two, NAME).text);
    }
  }

  /** No neighbouring pair is one the comparator would still swap. */
  predicate NameOrdered(s: seq<Record>)
  {
    forall k :: 0 < k < |s| ==> NameSort(s[k - 1], s[k]) < 0
  }

  predicate AllNamed(s: seq<Record>)
  {
    forall k :: 0 <= k < |s| ==> Get(s[k], NAME).Str?
  }

  /** Names are non-decreasing in code-unit order, across every pair. */
  ghost predicate SortedByName(s: seq<Record>)
  {
    forall p, q :: 0 <= p < q < |s| ==> !ValueGreater(Get(s[p], NAME), Get(s[q], NAME))
  }

  lemma {:induction false} OrderedPair(s: seq<Record>, p: nat, q: nat)
    requires AllNamed(s) && NameOrdered(s)
    requires p < q < |s|
    ensures !ValueGreater(Get(s[p], NAME), Get(s[q], NAME))
    decreases q - p
  {
    if p + 1 < q {
      OrderedPair(s, p + 1, q);
      assert NameSort(s[p], s[p + 1]) < 0;
      NotGreaterTransitive(Get(s[p], NAME).text, Get(s[p + 1], NAME).text, Get(s[q], NAME).text);
    } else {
      assert NameSort(s[p], s[q]) < 0;
    }
  }

  /** When every record has a string name, neighbour order is the full sorted order. */
  lemma OrderedIsSorted(s: seq<Record>)
    requires AllNamed(s) && NameOrdered(s)
    ensures SortedByName(s)
  {
    forall p, q | 0 <= p < q < |s|
      ensures !ValueGreater(Get(s[p], NAME), Get(s[q], NAME))
    {
      OrderedPair(s, p, q);
    }
  }

  /**
   * A name that is undefined breaks transitivity: this listing has no
   * neighbouring pair the comparator would swap, yet "b" comes before "a".
   */
  lemma UndefinedNameBreaksOrder(b: Record, u: Record, a: Record)
    requires Get(b, NAME) == Str(Js("b")) && Get(u, NAME) == Undefined && Get(a, NAME) == Str(Js("a"))
    ensures NameOrdered([b, u, a]) && !SortedByName([b, u, a])
  {
    assert Js("b")[0] as int == 'b' as int;
    assert Js("a")[0] as int == 'a' as int;
    assert ValueGreater(Get([b, u, a][0], NAME), Get([b, u, a][2], NAME));
  }

  /** Exchanges a[j - 1] and a[j]. */
  method SwapNeighbours(a: array<Record>, j: int)
    requires 0 < j < a.Length
    modifies a
    ensures a[j - 1] == old(a[j]) && a[j] == old(a[j - 1])
    ensures forall k :: 0 <= k < a.Length && k != j - 1 && k != j ==> a[k] == old(a[k])
    ensures multiset(a[..]) == multiset(old(a[..]))
  {
    a[j - 1], a[j] := a[j], a[j - 1];
  }

  /**
   * `a.sort(nameSort)`, done here by insertion with neighbour swaps: the
   * array ends as a permutation of what it held, with no neighbouring pair
   * the comparator would swap.
   */
  method SortByName(a: array<Record>)
    modifies a
    ensures multiset(a[..]) == multiset(old(a[..]))
    ensures NameOrdered(a[..])
  {
    if a.Length == 0 {
      return;
    }
    var i := 1;
    while i < a.Length
      invariant 1 <= i <= a.Length
      invariant multiset(a[..]) == multiset(old(a[..]))
      invariant forall k :: 0 < k < i ==> NameSort(a[k - 1], a[k]) < 0
    {
      InsertByName(a, i);
      i := i + 1;
    }
  }

  /** Moves a[i] down into the ordered prefix a[..i], so that a[..i + 1] is ordered. */
  method InsertByName(a: array<Record>, i: int)
    requires 0 < i < a.Length
    requires forall k :: 0 < k < i ==> NameSort(a[k - 1], a[k]) < 0
    modifies a
    ensures multiset(a[..]) == multiset(old(a[..]))
    ensures forall k :: 0 < k <= i ==> NameSort(a[k - 1], a[k]) < 0
  {
    var j := i;
    while 0 < j && NameSort(a[j - 1], a[j]) > 0
      invariant 0 <= j <= i
      invariant multiset(a[..]) == multiset(old(a[..]))
      invariant forall k :: 0 < k <= i && k != j ==> NameSort(a[k - 1], a[k]) < 0
      invariant 0 < j < i ==> NameSort(a[j - 1], a[j + 1]) < 0
    {
      NameSortAsymmetric(a[j - 1], a[j]);
      SwapNeighbours(a, j);
      assert NameSort(a[j - 1], a[j]) < 0;
      j := j - 1;
    }
  }
}
