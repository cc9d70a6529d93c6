/**
 * List presentation, shared by the list handlers and ZoneDAO.Query: sort by one field
 * ascending (`sort.Slice` with a `<` comparator), reverse in place for "DESC", then keep
 * the zero-based positions From..To inclusive, where To = 0 means no upper bound.
 */
module Sorting {
  import opened Wrappers
  import opened Constants

  // ---------------------------------------------------------------------------
  // Sort keys

  /** The value a comparator reads: an integer, a float64 (as a real) or a string. */
  datatype Key = KInt(i: int) | KReal(r: real) | KStr(s: string)

  /** Go's string `<=`: byte-wise on UTF-8, which is code-point order character by character. */
  predicate LexLe(a: string, b: string)
  {
    a == [] || (b != [] && (a[0] < b[0] || (a[0] == b[0] && LexLe(a[1..], b[1..]))))
  }

  lemma {:induction false} LexLeTotal(a: string, b: string)
    ensures LexLe(a, b) || LexLe(b, a)
  {
    if a != [] && b != [] && a[0] == b[0] { LexLeTotal(a[1..], b[1..]); }
  }

  lemma {:induction false} LexLeTrans(a: string, b: string, c: string)
    requires LexLe(a, b) && LexLe(b, c)
    ensures LexLe(a, c)
  {
    if a != [] && b != [] && c != [] && a[0] == b[0] && b[0] == c[0] {
      LexLeTrans(a[1..], b[1..], c[1..]);
    }
  }

  function Rank(k: Key): nat
  {
    match k
    case KInt(_) => 0
    case KReal(_) => 1
    case KStr(_) => 2
  }

  /** `!(b < a)` for keys of one kind; keys of different kinds (never compared by one comparator) order by kind. */
  predicate KeyLe(a: Key, b: Key)
  {
    if Rank(a) != Rank(b) then Rank(a) < Rank(b)
    else match a
      case KInt(x) => x <= b.i
      case KReal(x) => x <= b.r
      case KStr(x) => LexLe(x, b.s)
  }

  lemma KeyLeTotal(a: Key, b: Key)
    ensures KeyLe(a, b) || KeyLe(b, a)
  {
    if a.KStr? && b.KStr? { LexLeTotal(a.s, b.s); }
  }

  lemma KeyLeTrans(a: Key, b: Key, c: Key)
    requires KeyLe(a, b) && KeyLe(b, c)
    ensures KeyLe(a, c)
  {
    if a.KStr? && b.KStr? && c.KStr? { LexLeTrans(a.s, b.s, c.s); }
  }

  // ---------------------------------------------------------------------------
  // Sorting

  /** Ascending by the key. */
  predicate SortedBy<T>(s: seq<T>, key: T -> Key)
  {
    forall i, j :: 0 <= i < j < |s| ==> KeyLe(key(s[i]), key(s[j]))
  }

  /** Descending by the key. */
  predicate SortedDescBy<T>(s: seq<T>, key: T -> Key)
  {
    forall i, j :: 0 <= i < j < |s| ==> KeyLe(key(s[j]), key(s[i]))
  }

  function Insert<T>(x: T, s: seq<T>, key: T -> Key): (r: seq<T>)
    ensures multiset(r) == multiset(s) + multiset{x}
    ensures |r| == |s| + 1
  {
    if s == [] || KeyLe(key(x), key(s[0])) then [x] + s
    else
      assert s == [s[0]] + s[1..];
      [s[0]] + Insert(x, s[1..], key)
  }

  lemma {:induction false} InsertSorted<T>(x: T, s: seq<T>, key: T -> Key)
    requires SortedBy(s, key)
    ensures SortedBy(Insert(x, s, key), key)
  {
    if s == [] || KeyLe(key(x), key(s[0])) {
      var r := [x] + s;
      forall i, j | 0 <= i < j < |r| ensures KeyLe(key(r[i]), key(r[j])) {
        if i == 0 {
          if j > 1 { KeyLeTrans(key(x), key(s[0]), key(s[j - 1])); }
        }
      }
    } else {
      var tail := s[1..];
      assert SortedBy(tail, key) by {
        forall i, j | 0 <= i < j < |tail| ensures KeyLe(key(tail[i]), key(tail[j])) {
          assert tail[i] == s[i + 1] && tail[j] == s[j + 1];
        }
      }
      InsertSorted(x, tail, key);
      KeyLeTotal(key(x), key(s[0]));
      InsertAbove(x, tail, key, key(s[0]));
      var ins := Insert(x, tail, key);
      var r := [s[0]] + ins;
      forall i, j | 0 <= i < j < |r| ensures KeyLe(key(r[i]), key(r[j])) {
        if i > 0 {
          assert r[i] == ins[i - 1] && r[j] == ins[j - 1];
        }
      }
    }
  }

  /** A bound below x and below every element of s is below every element of the insertion. */
  lemma {:induction false} InsertAbove<T>(x: T, s: seq<T>, key: T -> Key, b: Key)
    requires KeyLe(b, key(x))
    requires forall i :: 0 <= i < |s| ==> KeyLe(b, key(s[i]))
    ensures forall i :: 0 <= i < |Insert(x, s, key)| ==> KeyLe(b, key(Insert(x, s, key)[i]))
  {
    if s != [] && !KeyLe(key(x), key(s[0])) {
      assert forall i :: 0 <= i < |s| - 1 ==> s[1..][i] == s[i + 1];
      InsertAbove(x, s[1..], key, b);
    }
  }

  /** The sort: a sorted permutation of the input (ties keep the input order). */
  function InsertionSort<T>(s: seq<T>, key: T -> Key): (r: seq<T>)
    ensures multiset(r) == multiset(s)
    ensures |r| == |s|
  {
    if s == [] then []
    else
      assert s == [s[0]] + s[1..];
      Insert(s[0], InsertionSort(s[1..], key), key)
  }

  lemma {:induction false} InsertionSortSorted<T>(s: seq<T>, key: T -> Key)
    ensures SortedBy(InsertionSort(s, key), key)
  {
    if s != [] {
      InsertionSortSorted(s[1..], key);
      InsertSorted(s[0], InsertionSort(s[1..], key), key);
    }
  }

  /** `sort.Slice(a, less)` for a strict-weak-order `less` given by a key. */
  method SortSlice<T>(a: array<T>, key: T -> Key)
    modifies a
    ensures a[..] == InsertionSort(old(a[..]), key)
  {
    var sorted := InsertionSort(a[..], key);
    forall i | 0 <= i < a.Length {
      a[i] := sorted[i];
    }
    assert a[..] == sorted;
  }

  // ---------------------------------------------------------------------------
  // Reversal

  function Reversed<T>(s: seq<T>): (r: seq<T>)
    ensures |r| == |s|
  {
    if s == [] then [] else Reversed(s[1..]) + [s[0]]
  }

  lemma {:induction false} ReversedAt<T>(s: seq<T>, k: nat)
    requires k < |s|
    ensures Reversed(s)[k] == s[|s| - 1 - k]
  {
    if k < |s| - 1 { ReversedAt(s[1..], k); }
  }

  lemma ReversedMultiset<T>(s: seq<T>)
    ensures multiset(Reversed(s)) == multiset(s)
  {
    if s != [] {
      ReversedMultiset(s[1..]);
      assert s == [s[0]] + s[1..];
    }
  }

  /** Reversing an ascending list gives a descending one. */
  lemma ReversedSortedIsDesc<T>(s: seq<T>, key: T -> Key)
    requires SortedBy(s, key)
    ensures SortedDescBy(Reversed(s), key)
  {
    var r := Reversed(s);
    forall i, j | 0 <= i < j < |r| ensures KeyLe(key(r[j]), key(r[i])) {
      ReversedAt(s, i);
      ReversedAt(s, j);
    }
  }

  /** The in-place swap loop `for i, j := 0, len(a)-1; i < j; i, j = i+1, j-1`. */
  method ReverseSlice<T>(a: array<T>)
    modifies a
    ensures a[..] == Reversed(old(a[..]))
  {
    var n := a.Length;
    var i, j := 0, n - 1;
    while i < j
      invariant 0 <= i <= n && j == n - 1 - i
      invariant i <= j + 1
      invariant forall k :: 0 <= k < i ==> a[k] == old(a[n - 1 - k]) && a[n - 1 - k] == old(a[k])
      invariant forall k :: i <= k < n - i ==> a[k] == old(a[k])
    {
      a[i], a[j] := a[j], a[i];
      i, j := i + 1, j - 1;
    }
    ghost var was := old(a[..]);
    forall k | 0 <= k < n ensures a[..][k] == Reversed(was)[k] {
      ReversedAt(was, k);
    }
  }

  // ---------------------------------------------------------------------------
  // Sort-then-order

  /**
   * The list after `sortUsers`/`sortZones`: sorted ascending when the field has a key
   * (an unknown field reaches the empty `default` case), then reversed for "DESC".
   */
  function Arrange<T>(s: seq<T>, key: Option<T -> Key>, order: string): seq<T>
  {
    var sorted := if key.Some? then InsertionSort(s, key.value) else s;
    if order == Descending then Reversed(sorted) else sorted
  }

  /** What the arrangement promises: a permutation, ascending for a known field, descending with "DESC". */
  lemma ArrangeMeaning<T>(s: seq<T>, key: Option<T -> Key>, order: string)
    ensures multiset(Arrange(s, key, order)) == multiset(s)
    ensures key.Some? && order != Descending ==> SortedBy(Arrange(s, key, order), key.value)
    ensures key.Some? && order == Descending ==> SortedDescBy(Arrange(s, key, order), key.value)
    ensures key.None? ==> Arrange(s, key, order) == if order == Descending then Reversed(s) else s
  {
    var sorted := if key.Some? then InsertionSort(s, key.value) else s;
    if key.Some? { InsertionSortSorted(s, key.value); }
    if order == Descending {
      ReversedMultiset(sorted);
      if key.Some? { ReversedSortedIsDesc(sorted, key.value); }
    }
  }

  /** Sorting by a known field, then "DESC" reversal, in place: the result is `Arrange`. */
  method SortAndOrder<T>(a: array<T>, key: Option<T -> Key>, order: string)
    modifies a
    ensures a[..] == Arrange(old(a[..]), key, order)
  {
    if key.Some? {
      SortSlice(a, key.value);
    }
    if order == Descending {
      ReverseSlice(a);
    }
  }

  // ---------------------------------------------------------------------------
  // The From..To page

  /** Position i is shown: i >= From and (To == 0 or i <= To). */
  predicate InWindow(i: int, from: int, to: int)
  {
    i >= from && (to == 0 || i <= to)
  }

  /** The items at the shown positions, in order. */
  function Window<T>(items: seq<T>, from: int, to: int): (r: seq<T>)
    ensures |r| <= |items|
  {
    if items == [] then []
    else
      var n := |items| - 1;
      Window(items[..n], from, to) + (if InWindow(n, from, to) then [items[n]] else [])
  }

  /** Every shown item comes from the list, and every position in the window is shown. */
  lemma {:induction false} WindowMembers<T>(items: seq<T>, from: int, to: int)
    ensures forall x :: x in Window(items, from, to) ==> x in items
    ensures forall i :: 0 <= i < |items| && InWindow(i, from, to) ==> items[i] in Window(items, from, to)
  {
    if items != [] {
      var n := |items| - 1;
      WindowMembers(items[..n], from, to);
      assert forall i :: 0 <= i < n ==> items[..n][i] == items[i];
    }
  }

  /** For 0 <= From <= To < len, the page is the slice From..To inclusive. */
  lemma {:induction false} WindowSlice<T>(items: seq<T>, from: int, to: int)
    requires 0 <= from <= to < |items| && to != 0
    ensures Window(items, from, to) == items[from..to + 1]
  {
    WindowPrefix(items, from, to, to + 1);
  }

  /** With To = 0 and 0 <= From <= len, the page is everything from From on. */
  lemma WindowUnbounded<T>(items: seq<T>, from: int)
    requires 0 <= from <= |items|
    ensures Window(items, from, 0) == items[from..]
  {
    WindowPrefix(items, from, 0, |items|);
  }

  /** The window of a list equals the window of its prefix up to the last shown position. */
  lemma WindowPrefix<T>(items: seq<T>, from: int, to: int, m: int)
    requires 0 <= from <= m <= |items|
    requires to == 0 ==> m == |items|
    requires to != 0 ==> m == if |items| < to + 1 then |items| else to + 1
    ensures Window(items, from, to) == items[from..m]
  {
    WindowDropTail(items, from, to, m);
    WindowAll(items[..m], from, to);
    assert items[..m][from..] == items[from..m];
  }

  /** Positions from m on are not shown: they can be cut off. */
  lemma {:induction false} WindowDropTail<T>(items: seq<T>, from: int, to: int, m: int)
    requires 0 <= m <= |items|
    requires forall i :: m <= i < |items| ==> !InWindow(i, from, to)
    ensures Window(items, from, to) == Window(items[..m], from, to)
  {
    if |items| > m {
      var n := |items| - 1;
      assert !InWindow(n, from, to);
      WindowDropTail(items[..n], from, to, m);
      assert items[..n][..m] == items[..m];
    } else {
      assert items[..m] == items;
    }
  }

  /** Every position from From on is shown: the window is the suffix. */
  lemma {:induction false} WindowAll<T>(items: seq<T>, from: int, to: int)
    requires 0 <= from <= |items|
    requires forall i :: from <= i < |items| ==> InWindow(i, from, to)
    ensures Window(items, from, to) == items[from..]
  {
    if |items| > from {
      var n := |items| - 1;
      assert InWindow(n, from, to);
      WindowAll(items[..n], from, to);
      assert items[..n][from..] + [items[n]] == items[from..];
    } else {
      WindowBelow(items, from, to);
    }
  }

  /** No position of the list reaches From: nothing is shown. */
  lemma {:induction false} WindowBelow<T>(items: seq<T>, from: int, to: int)
    requires |items| <= from
    ensures Window(items, from, to) == []
  {
    if items != [] {
      WindowBelow(items[..|items| - 1], from, to);
    }
  }

  /** A bound To below From (and non-zero) shows nothing. */
  lemma {:induction false} WindowInverted<T>(items: seq<T>, from: int, to: int)
    requires to != 0 && to < from
    ensures Window(items, from, to) == []
  {
    if items != [] {
      WindowInverted(items[..|items| - 1], from, to);
    }
  }

  /** The paging loop: `index` counts every item; items below From or above a non-zero To are skipped. */
  method Page<T>(items: seq<T>, from: int, to: int) returns (rslt: seq<T>)
    ensures rslt == Window(items, from, to)
  {
    var index := 0;
    rslt := [];
    for k := 0 to |items|
      invariant index == k
      invariant rslt == Window(items[..k], from, to)
    {
      assert items[..k + 1][..k] == items[..k];
      if index < from {
        index := index + 1;
        continue;
      }
      if to != 0 && index > to {
        index := index + 1;
        continue;
      }
      index := index + 1;
      rslt := rslt + [items[k]];
    }
    assert items[..|items|] == items;
  }
}
