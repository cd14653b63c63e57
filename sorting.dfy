/** `Array.prototype.sort` with a consistent comparator, which the source uses to order rules and
    agents. The language guarantees a stable sort, so for a comparator `cmp` the result is the unique
    stable ordering by `lt(a, b) := cmp(a, b) < 0`; `SortBy` computes it by insertion. */
module Sorting {

  /** `lt` is a strict weak order: irreflexive, transitive, and "not before" is transitive. This is
      what a comparator derived from numeric keys gives. */
  ghost predicate StrictWeakOrder<T(!new)>(lt: (T, T) -> bool) {
    && (forall a :: !lt(a, a))
    && (forall a, b, c :: lt(a, b) && lt(b, c) ==> lt(a, c))
    && (forall a, b, c :: !lt(a, b) && !lt(b, c) ==> !lt(a, c))
  }

  /** No element comes strictly before an element to its left. */
  ghost predicate SortedBy<T>(s: seq<T>, lt: (T, T) -> bool) {
    forall i, j :: 0 <= i < j < |s| ==> !lt(s[j], s[i])
  }

  /** Nothing in `s` comes strictly before `s[k]`. */
  ghost predicate IsLeast<T>(s: seq<T>, k: int, lt: (T, T) -> bool) {
    0 <= k < |s| && forall j :: 0 <= j < |s| ==> !lt(s[j], s[k])
  }

  /** Insert `x` before the first element that does not come strictly before it. */
  function Insert<T>(x: T, s: seq<T>, lt: (T, T) -> bool): (r: seq<T>)
    ensures multiset(r) == multiset(s) + multiset{x}
  {
    if s == [] || !lt(s[0], x) then [x] + s
    else
      assert s == [s[0]] + s[1..];
      [s[0]] + Insert(x, s[1..], lt)
  }

  /** The stable sort of `s` by `lt`. */
  function SortBy<T>(s: seq<T>, lt: (T, T) -> bool): (r: seq<T>)
    ensures multiset(r) == multiset(s)
    ensures |r| == |s|
  {
    if s == [] then []
    else
      assert s == [s[0]] + s[1..];
      Insert(s[0], SortBy(s[1..], lt), lt)
  }

  lemma {:induction false} InsertSorted<T(!new)>(x: T, s: seq<T>, lt: (T, T) -> bool)
    requires StrictWeakOrder(lt)
    requires SortedBy(s, lt)
    ensures SortedBy(Insert(x, s, lt), lt)
  {
    if s == [] || !lt(s[0], x) {
      var r := [x] + s;
      forall i, j | 0 <= i < j < |r| ensures !lt(r[j], r[i]) {
        if i == 0 {
          if j > 1 { assert !lt(r[j], s[0]); }
        }
      }
    } else {
      InsertSorted(x, s[1..], lt);
      var t := Insert(x, s[1..], lt);
      var r := [s[0]] + t;
      assert multiset(t) == multiset(s[1..]) + multiset{x};
      forall j | 0 <= j < |t| ensures !lt(t[j], s[0]) {
        assert t[j] in multiset(t);
        if t[j] != x {
          assert t[j] in multiset(s[1..]);
          var k :| 0 <= k < |s[1..]| && s[1..][k] == t[j];
          assert s[k + 1] == t[j];
        }
      }
      forall i, j | 0 <= i < j < |r| ensures !lt(r[j], r[i]) {
        if i == 0 { assert r[j] == t[j - 1]; }
        else { assert r[i] == t[i - 1] && r[j] == t[j - 1]; }
      }
    }
  }

  /** `SortBy` orders its result. */
  lemma {:induction false} SortBySorted<T(!new)>(s: seq<T>, lt: (T, T) -> bool)
    requires StrictWeakOrder(lt)
    ensures SortedBy(SortBy(s, lt), lt)
  {
    if s != [] {
      SortBySorted(s[1..], lt);
      InsertSorted(s[0], SortBy(s[1..], lt), lt);
    }
  }

  /** The element `SortBy` puts first is the leftmost element of `s` that nothing comes strictly
      before: this is what `sorted[0]` returns in the source. */
  lemma {:induction false} SortByHead<T(!new)>(s: seq<T>, lt: (T, T) -> bool) returns (k: nat)
    requires StrictWeakOrder(lt)
    requires s != []
    ensures k < |s| && SortBy(s, lt)[0] == s[k]
    ensures IsLeast(s, k, lt)
    ensures forall j :: 0 <= j < k ==> !IsLeast(s, j, lt)
  {
    var t := SortBy(s[1..], lt);
    if t == [] {
      k := 0;
    } else {
      var k' := SortByHead(s[1..], lt);
      assert t[0] == s[k' + 1];
      if !lt(t[0], s[0]) {
        k := 0;
        HeadStaysFirst(s, k', lt);
      } else {
        k := k' + 1;
        HeadMovesLater(s, k', lt);
      }
    }
  }

  /** The first element is least when the least of the others does not come before it. */
  lemma HeadStaysFirst<T(!new)>(s: seq<T>, k': nat, lt: (T, T) -> bool)
    requires StrictWeakOrder(lt)
    requires |s| >= 2 && IsLeast(s[1..], k', lt) && !lt(s[k' + 1], s[0])
    ensures IsLeast(s, 0, lt)
  {
    forall j | 0 <= j < |s| ensures !lt(s[j], s[0]) {
      if j > 0 { assert s[j] == s[1..][j - 1]; assert !lt(s[1..][j - 1], s[1..][k']); }
    }
  }

  /** Otherwise the leftmost least of the others is the leftmost least of all. */
  lemma HeadMovesLater<T(!new)>(s: seq<T>, k': nat, lt: (T, T) -> bool)
    requires StrictWeakOrder(lt)
    requires |s| >= 2 && IsLeast(s[1..], k', lt) && lt(s[k' + 1], s[0])
    requires forall j :: 0 <= j < k' ==> !IsLeast(s[1..], j, lt)
    ensures IsLeast(s, k' + 1, lt)
    ensures forall j :: 0 <= j < k' + 1 ==> !IsLeast(s, j, lt)
  {
    var k := k' + 1;
    assert !IsLeast(s, 0, lt);
    forall j | 0 <= j < |s| ensures !lt(s[j], s[k]) {
      if j > 0 { assert s[j] == s[1..][j - 1]; }
    }
    forall j | 1 <= j < k ensures !IsLeast(s, j, lt) {
      assert !IsLeast(s[1..], j - 1, lt);
      var m :| 0 <= m < |s[1..]| && lt(s[1..][m], s[1..][j - 1]);
      assert s[m + 1] == s[1..][m];
    }
  }
}
