/**
 * `Array.prototype.sort` with a comparator that orders by a descending key:
 * the sort is stable (ECMAScript 2019), so elements the comparator ties keep
 * their input order. Modelled as insertion sort, which is stable: each
 * element goes in front of the first already-sorted element it is not
 * below.
 */
module Sorting {

  /** `geq` is total and transitive on the set `dom`. */
  ghost predicate TotalPreorderOn<T>(geq: (T, T) -> bool, dom: set<T>) {
    && (forall x, y :: x in dom && y in dom ==> geq(x, y) || geq(y, x))
    && (forall x, y, z :: x in dom && y in dom && z in dom && geq(x, y) && geq(y, z) ==> geq(x, z))
  }

  /** Every element is `geq` every element after it. */
  ghost predicate SortedBy<T>(s: seq<T>, geq: (T, T) -> bool) {
    forall i, j :: 0 <= i < j < |s| ==> geq(s[i], s[j])
  }

  function Insert<T(!new)>(x: T, s: seq<T>, geq: (T, T) -> bool): (r: seq<T>)
    ensures |r| == |s| + 1
    ensures multiset(r) == multiset(s) + multiset{x}
    ensures forall e :: e in r <==> e == x || e in s
  {
    if s == [] then [x]
    else if geq(x, s[0]) then [x] + s
    else
      assert s == [s[0]] + s[1..];
      [s[0]] + Insert(x, s[1..], geq)
  }

  /** The stable descending sort of `s` under `geq`. */
  function SortDesc<T(!new)>(s: seq<T>, geq: (T, T) -> bool): (r: seq<T>)
    ensures |r| == |s|
    ensures multiset(r) == multiset(s)
    ensures forall e :: e in r <==> e in s
  {
    if s == [] then []
    else
      assert s == [s[0]] + s[1..];
      Insert(s[0], SortDesc(s[1..], geq), geq)
  }

  lemma {:induction false} InsertSorted<T(!new)>(x: T, s: seq<T>, geq: (T, T) -> bool, dom: set<T>)
    requires SortedBy(s, geq)
    requires TotalPreorderOn(geq, dom) && x in dom && forall e :: e in s ==> e in dom
    ensures SortedBy(Insert(x, s, geq), geq)
  {
    if s == [] {
    } else if geq(x, s[0]) {
      var r := Insert(x, s, geq);
      forall j | 1 <= j < |r| ensures geq(x, r[j]) {
        assert r[j] == s[j - 1] && s[0] in dom && s[j - 1] in dom;
        if j > 1 {
          assert geq(s[0], s[j - 1]);
        }
      }
    } else {
      var r := Insert(x, s, geq);
      var t := Insert(x, s[1..], geq);
      InsertSorted(x, s[1..], geq, dom);
      assert geq(s[0], x) by { assert s[0] in s; }
      forall j | 0 <= j < |t| ensures geq(s[0], t[j]) {
        assert t[j] in t;
        if t[j] != x {
          var k :| 0 <= k < |s[1..]| && s[1..][k] == t[j];
          assert s[k + 1] == t[j];
        }
      }
      assert r == [s[0]] + t;
    }
  }

  /** The result is ordered: every element ranks at least as high as every later one. */
  lemma {:induction false} SortDescSorted<T(!new)>(s: seq<T>, geq: (T, T) -> bool, dom: set<T>)
    requires TotalPreorderOn(geq, dom) && forall e :: e in s ==> e in dom
    ensures SortedBy(SortDesc(s, geq), geq)
  {
    if s != [] {
      SortDescSorted(s[1..], geq, dom);
      assert s[0] in s;
      InsertSorted(s[0], SortDesc(s[1..], geq), geq, dom);
    }
  }

  /** In a sorted sequence, everything before a cut is `geq` everything after it. */
  lemma SortedSplit<T>(s: seq<T>, geq: (T, T) -> bool, cut: nat)
    requires SortedBy(s, geq) && cut <= |s|
    ensures forall x, y :: x in s[..cut] && y in s[cut..] ==> geq(x, y)
  {
    forall x, y | x in s[..cut] && y in s[cut..]
      ensures geq(x, y)
    {
      var i :| 0 <= i < cut && s[i] == x;
      var j :| cut <= j < |s| && s[j] == y;
    }
  }
}
