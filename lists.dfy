/**
 * The list operations the pages use: JavaScript's stable `Array.prototype.sort`
 * with a comparator, modelled as a stable insertion sort over a total preorder,
 * `Array.prototype.flat` of a list of lists, and string comparison.
 */
module Lists {

  /** `le` is total and transitive: what a consistent sort comparator gives. */
  ghost predicate TotalPreorder<T(!new)>(le: (T, T) -> bool) {
    && (forall a, b :: le(a, b) || le(b, a))
    && (forall a, b, c :: le(a, b) && le(b, c) ==> le(a, c))
  }

  ghost predicate SortedBy<T>(le: (T, T) -> bool, s: seq<T>) {
    forall i, j :: 0 <= i < j < |s| ==> le(s[i], s[j])
  }

  /**
   * Inserts `x` before the first element it is `le` to. An element equal in
   * the order stays after `x`, which is what keeps the sort stable when `x`
   * came first in the input.
   */
  function Insert<T>(x: T, s: seq<T>, le: (T, T) -> bool): (r: seq<T>)
    ensures multiset(r) == multiset(s) + multiset{x}
  {
    if s == [] || le(x, s[0]) then [x] + s
    else
      var rest := Insert(x, s[1..], le);
      assert s == [s[0]] + s[1..];
      [s[0]] + rest
  }

  /** A copy of `s` sorted stably by `le`, as `[...s].sort(cmp)` returns it. */
  function SortBy<T>(s: seq<T>, le: (T, T) -> bool): (r: seq<T>)
    ensures multiset(r) == multiset(s)
    ensures |r| == |s|
  {
    if s == [] then []
    else
      assert s == [s[0]] + s[1..];
      Insert(s[0], SortBy(s[1..], le), le)
  }

  lemma {:induction false} InsertSorted<T(!new)>(x: T, s: seq<T>, le: (T, T) -> bool)
    requires TotalPreorder(le) && SortedBy(le, s)
    ensures SortedBy(le, Insert(x, s, le))
  {
    if s == [] || le(x, s[0]) {
      forall j | 0 <= j < |s| ensures le(x, s[j]) {
        assert j == 0 || le(s[0], s[j]);
      }
    } else {
      var rest := Insert(x, s[1..], le);
      InsertSorted(x, s[1..], le);
      assert le(s[0], x);
      forall k | 0 <= k < |rest| ensures le(s[0], rest[k]) {
        assert rest[k] in multiset(rest);
        if rest[k] != x {
          assert rest[k] in multiset(s[1..]);
          var m :| 0 <= m < |s[1..]| && s[1..][m] == rest[k];
          assert le(s[0], s[m + 1]);
        }
      }
      assert Insert(x, s, le) == [s[0]] + rest;
    }
  }

  /** The sort's output is ordered by `le`. */
  lemma {:induction false} SortBySorted<T(!new)>(s: seq<T>, le: (T, T) -> bool)
    requires TotalPreorder(le)
    ensures SortedBy(le, SortBy(s, le))
  {
    if s != [] {
      SortBySorted(s[1..], le);
      InsertSorted(s[0], SortBy(s[1..], le), le);
    }
  }

  /**
   * The first element of the sorted copy is the earliest element of the input
   * that no earlier element precedes strictly: stability at the head.
   */
  lemma {:induction false} SortByHead<T(!new)>(s: seq<T>, le: (T, T) -> bool)
    requires |s| > 0
    ensures exists k :: 0 <= k < |s| && SortBy(s, le)[0] == s[k] && forall j :: 0 <= j < k ==> !le(s[j], s[k])
  {
    var rest := SortBy(s[1..], le);
    if rest == [] || le(s[0], rest[0]) {
      assert SortBy(s, le)[0] == s[0];
    } else {
      SortByHead(s[1..], le);
      var k :| 0 <= k < |s[1..]| && rest[0] == s[1..][k] && forall j :: 0 <= j < k ==> !le(s[1..][j], s[1..][k]);
      assert SortBy(s, le)[0] == s[k + 1];
      forall j | 0 <= j < k + 1 ensures !le(s[j], s[k + 1]) {
        if j > 0 {
          assert s[j] == s[1..][j - 1];
        }
      }
    }
  }

  /** `xs.flat()`: the lists one after another, in order. */
  function Flatten<T>(xs: seq<seq<T>>): (r: seq<T>)
    ensures |r| == TotalLength(xs)
  {
    if xs == [] then [] else xs[0] + Flatten(xs[1..])
  }

  function TotalLength<T>(xs: seq<seq<T>>): nat {
    if xs == [] then 0 else |xs[0]| + TotalLength(xs[1..])
  }

  /**
   * List `i` of `xs` is the slice of the flattened list that starts after the
   * lists before it: nothing is lost, reordered or interleaved.
   */
  lemma {:induction false} FlattenSlice<T>(xs: seq<seq<T>>, i: nat)
    requires i < |xs|
    ensures TotalLength(xs[..i]) + |xs[i]| <= |Flatten(xs)|
    ensures Flatten(xs)[TotalLength(xs[..i])..TotalLength(xs[..i]) + |xs[i]|] == xs[i]
  {
    if i == 0 {
      assert xs[..0] == [];
    } else {
      FlattenSlice(xs[1..], i - 1);
      assert xs[1..][..i - 1] == xs[1..i];
      assert xs[..i] == [xs[0]] + xs[1..i];
      assert TotalLength(xs[..i]) == |xs[0]| + TotalLength(xs[1..i]);
    }
  }

  /** Lexicographic order on strings by code point (`localeCompare` <= 0, approximated). */
  predicate StrLe(a: string, b: string) {
    a == [] || (b != [] && (a[0] < b[0] || (a[0] == b[0] && StrLe(a[1..], b[1..]))))
  }

  lemma {:induction false} StrLeTotal(a: string, b: string)
    ensures StrLe(a, b) || StrLe(b, a)
  {
    if a != [] && b != [] && a[0] == b[0] {
      StrLeTotal(a[1..], b[1..]);
    }
  }

  lemma {:induction false} StrLeTrans(a: string, b: string, c: string)
    requires StrLe(a, b) && StrLe(b, c)
    ensures StrLe(a, c)
  {
    if a != [] && b != [] && c != [] && a[0] == b[0] && b[0] == c[0] {
      StrLeTrans(a[1..], b[1..], c[1..]);
    }
  }
}
