/** Python's `sorted`: a stable sort by a total preorder. */
module StableSort {
  ghost predicate TotalPreorder<T(!new)>(le: (T, T) -> bool) {
    && (forall a, b :: le(a, b) || le(b, a))
    && (forall a, b, c :: le(a, b) && le(b, c) ==> le(a, c))
  }

  ghost predicate Sorted<T>(le: (T, T) -> bool, s: seq<T>) {
    forall i, j :: 0 <= i < j < |s| ==> le(s[i], s[j])
  }

  /** `x` goes behind everything that is not larger. */
  function Insert<T>(le: (T, T) -> bool, s: seq<T>, x: T): seq<T> {
    if s == [] then [x]
    else if le(s[|s| - 1], x) then s + [x]
    else Insert(le, s[..|s| - 1], x) + [s[|s| - 1]]
  }

  function Sort<T>(le: (T, T) -> bool, s: seq<T>): seq<T> {
    if s == [] then [] else Insert(le, Sort(le, s[..|s| - 1]), s[|s| - 1])
  }

  lemma {:induction false} InsertMembers<T>(le: (T, T) -> bool, s: seq<T>, x: T)
    ensures multiset(Insert(le, s, x)) == multiset(s) + multiset{x}
  {
    if s != [] {
      assert s == s[..|s| - 1] + [s[|s| - 1]];
      if !le(s[|s| - 1], x) { InsertMembers(le, s[..|s| - 1], x); }
    }
  }

  lemma BoundedInsert<T>(le: (T, T) -> bool, s: seq<T>, x: T, top: T)
    requires le(x, top) && forall i :: 0 <= i < |s| ==> le(s[i], top)
    ensures forall i :: 0 <= i < |Insert(le, s, x)| ==> le(Insert(le, s, x)[i], top)
  {
    var r := Insert(le, s, x);
    InsertMembers(le, s, x);
    forall i | 0 <= i < |r| ensures le(r[i], top) {
      assert r[i] in multiset(r);
      if r[i] != x {
        assert r[i] in multiset(s);
        var k :| 0 <= k < |s| && s[k] == r[i];
      }
    }
  }

  lemma {:induction false} InsertIsSorted<T(!new)>(le: (T, T) -> bool, s: seq<T>, x: T)
    requires TotalPreorder(le) && Sorted(le, s)
    ensures Sorted(le, Insert(le, s, x))
  {
    if s != [] {
      var n := |s| - 1;
      if le(s[n], x) {
        forall i | 0 <= i < n ensures le(s[i], x) { assert le(s[i], s[n]); }
      } else {
        InsertIsSorted(le, s[..n], x);
        BoundedInsert(le, s[..n], x, s[n]);
      }
    }
  }

  lemma {:induction false} SortIsSorted<T(!new)>(le: (T, T) -> bool, s: seq<T>)
    requires TotalPreorder(le)
    ensures Sorted(le, Sort(le, s)) && multiset(Sort(le, s)) == multiset(s) && |Sort(le, s)| == |s|
  {
    if s != [] {
      var n := |s| - 1;
      SortIsSorted(le, s[..n]);
      InsertMembers(le, Sort(le, s[..n]), s[n]);
      InsertIsSorted(le, Sort(le, s[..n]), s[n]);
      assert s == s[..n] + [s[n]];
      assert |multiset(Sort(le, s))| == |multiset(s)|;
    }
  }
}
