/**
 * The two LINQ operators the Finnish mapping relies on: `OrderByDescending`, which is a
 * stable sort (elements with equal keys keep their input order), and `FirstOrDefault`.
 * Together they pick, among the elements satisfying a condition, one with the greatest key,
 * the earliest one in the input when several share that key.
 */
module Ordering {
  import opened Wrappers
  import opened Dates

  /** A sort key over `DateTimeOffset` or `DateTimeOffset?`: null sorts below every instant. */
  datatype Key = NullKey | At(instant: Instant)

  /** The default comparer of the key type: `a` comes no later than `b` in ascending order. */
  predicate KeyLeq(a: Key, b: Key) {
    a.NullKey? || (b.At? && a.instant <= b.instant)
  }

  ghost predicate Descending<T>(s: seq<T>, key: T -> Key) {
    forall i, j :: 0 <= i < j < |s| ==> KeyLeq(key(s[j]), key(s[i]))
  }

  /** Puts `x` in front of the first element whose key is not greater than its own. */
  function Insert<T>(x: T, s: seq<T>, key: T -> Key): (r: seq<T>)
    ensures |r| == |s| + 1
    ensures multiset(r) == multiset(s) + multiset{x}
    ensures forall i :: 0 <= i < |r| ==> r[i] == x || r[i] in s
    ensures Descending(s, key) ==> Descending(r, key)
  {
    if s == [] || KeyLeq(key(s[0]), key(x)) then [x] + s
    else
      var t := Insert(x, s[1..], key);
      assert forall i :: 0 <= i < |t| ==> t[i] == x || t[i] in s by {
        forall i | 0 <= i < |t| && t[i] != x ensures t[i] in s {
          assert t[i] in s[1..];
        }
      }
      assert s == [s[0]] + s[1..];
      [s[0]] + t
  }

  /** `OrderByDescending(key)`: the input, sorted by descending key, stably. */
  function SortDescending<T>(xs: seq<T>, key: T -> Key): (r: seq<T>)
    ensures |r| == |xs|
    ensures multiset(r) == multiset(xs)
    ensures Descending(r, key)
  {
    if xs == [] then []
    else
      assert xs == [xs[0]] + xs[1..];
      Insert(xs[0], SortDescending(xs[1..], key), key)
  }

  /** `FirstOrDefault(p)`: the first element satisfying `p`, or null when there is none. */
  function FirstWhere<T>(s: seq<T>, p: T -> bool): (r: Option<T>)
    ensures r.None? <==> forall i :: 0 <= i < |s| ==> !p(s[i])
    ensures r.Some? ==> p(r.value) && r.value in s
  {
    if s == [] then None
    else if p(s[0]) then Some(s[0])
    else FirstWhere(s[1..], p)
  }

  /**
   * Element `i` of `xs` is the one the selection should give: it satisfies `p`, no element
   * satisfying `p` has a greater key, and every earlier one satisfying `p` has a smaller key.
   */
  ghost predicate IsLatest<T>(xs: seq<T>, i: int, key: T -> Key, p: T -> bool) {
    && 0 <= i < |xs|
    && p(xs[i])
    && (forall j :: 0 <= j < |xs| && p(xs[j]) ==> KeyLeq(key(xs[j]), key(xs[i])))
    && (forall j :: 0 <= j < i && p(xs[j]) ==> !KeyLeq(key(xs[i]), key(xs[j])))
  }

  /** At most one element is the latest. */
  lemma IsLatestUnique<T>(xs: seq<T>, i: int, k: int, key: T -> Key, p: T -> bool)
    requires IsLatest(xs, i, key, p) && IsLatest(xs, k, key, p)
    ensures i == k
  {
  }

  /** What the first element satisfying `p` becomes when `x` is inserted in front of `s`'s. */
  function PickLater<T>(x: T, o: Option<T>, key: T -> Key, p: T -> bool): Option<T> {
    if !p(x) then o
    else if o.Some? && !KeyLeq(key(o.value), key(x)) then o
    else Some(x)
  }

  lemma {:induction false} FirstWhereInsert<T>(x: T, s: seq<T>, key: T -> Key, p: T -> bool)
    requires Descending(s, key)
    ensures FirstWhere(Insert(x, s, key), p) == PickLater(x, FirstWhere(s, p), key, p)
    decreases |s|
  {
    if s == [] || KeyLeq(key(s[0]), key(x)) {
      var o := FirstWhere(s, p);
      if o.Some? {
        var k :| 0 <= k < |s| && s[k] == o.value;
        if k > 0 {
          assert KeyLeq(key(s[k]), key(s[0]));
        }
      }
      assert ([x] + s)[1..] == s;
    } else {
      assert Descending(s[1..], key) by {
        forall i, j | 0 <= i < j < |s[1..]| ensures KeyLeq(key(s[1..][j]), key(s[1..][i])) {
          assert s[1..][j] == s[j + 1] && s[1..][i] == s[i + 1];
        }
      }
      FirstWhereInsert(x, s[1..], key, p);
      var t := Insert(x, s[1..], key);
      assert ([s[0]] + t)[1..] == t;
    }
  }

  /** The latest element of the tail stays the latest when the head does not beat it. */
  lemma LatestBehindHead<T>(xs: seq<T>, i: int, key: T -> Key, p: T -> bool)
    requires xs != [] && IsLatest(xs[1..], i, key, p)
    requires !p(xs[0]) || !KeyLeq(key(xs[1..][i]), key(xs[0]))
    ensures IsLatest(xs, i + 1, key, p)
  {
    assert forall j :: 0 < j < |xs| ==> xs[j] == xs[1..][j - 1];
  }

  /** The head is the latest when it satisfies `p` and no later element has a greater key. */
  lemma LatestAtHead<T>(xs: seq<T>, key: T -> Key, p: T -> bool)
    requires xs != [] && p(xs[0])
    requires forall j :: 0 <= j < |xs[1..]| && p(xs[1..][j]) ==> KeyLeq(key(xs[1..][j]), key(xs[0]))
    ensures IsLatest(xs, 0, key, p)
  {
    assert forall j :: 0 < j < |xs| ==> xs[j] == xs[1..][j - 1];
  }

  /** The position of the latest element, or -1 when no element satisfies `p`. */
  function LatestIndex<T>(xs: seq<T>, key: T -> Key, p: T -> bool): (k: int)
    ensures -1 <= k < |xs|
  {
    if xs == [] then -1
    else
      var k := LatestIndex(xs[1..], key, p);
      if !p(xs[0]) then (if k < 0 then -1 else k + 1)
      else if k >= 0 && !KeyLeq(key(xs[1..][k]), key(xs[0])) then k + 1
      else 0
  }

  /** `LatestIndex` finds the element `IsLatest` describes, and finds none when there is none. */
  lemma {:induction false} LatestIndexIsLatest<T>(xs: seq<T>, key: T -> Key, p: T -> bool)
    ensures LatestIndex(xs, key, p) < 0 <==> forall j :: 0 <= j < |xs| ==> !p(xs[j])
    ensures LatestIndex(xs, key, p) >= 0 ==> IsLatest(xs, LatestIndex(xs, key, p), key, p)
  {
    if xs != [] {
      var k := LatestIndex(xs[1..], key, p);
      LatestIndexIsLatest(xs[1..], key, p);
      if k >= 0 && (!p(xs[0]) || !KeyLeq(key(xs[1..][k]), key(xs[0]))) {
        LatestBehindHead(xs, k, key, p);
      } else if p(xs[0]) {
        LatestAtHead(xs, key, p);
      } else {
        assert forall j :: 0 < j < |xs| ==> xs[j] == xs[1..][j - 1];
      }
    }
  }

  /** Sorting, then taking the first element satisfying `p`, gives the element at `LatestIndex`. */
  lemma {:induction false} FirstOfSortedAtLatestIndex<T>(xs: seq<T>, key: T -> Key, p: T -> bool)
    ensures FirstWhere(SortDescending(xs, key), p) ==
              if LatestIndex(xs, key, p) < 0 then None else Some(xs[LatestIndex(xs, key, p)])
  {
    if xs != [] {
      FirstOfSortedAtLatestIndex(xs[1..], key, p);
      FirstWhereInsert(xs[0], SortDescending(xs[1..], key), key, p);
    }
  }

  /**
   * The selection of the Finnish mapping, `OrderByDescending(key).FirstOrDefault(p)`: it is
   * null exactly when no element satisfies `p`, and otherwise it is the latest element.
   */
  lemma FirstOfSortedIsLatest<T>(xs: seq<T>, key: T -> Key, p: T -> bool)
    ensures FirstWhere(SortDescending(xs, key), p).None? <==> forall j :: 0 <= j < |xs| ==> !p(xs[j])
    ensures FirstWhere(SortDescending(xs, key), p).Some? ==>
              exists i :: IsLatest(xs, i, key, p) && xs[i] == FirstWhere(SortDescending(xs, key), p).value
  {
    FirstOfSortedAtLatestIndex(xs, key, p);
    LatestIndexIsLatest(xs, key, p);
  }
}
