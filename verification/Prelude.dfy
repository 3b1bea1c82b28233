/** Small datatypes and sequence vocabulary shared by every module. */
module Prelude {
  datatype Option<+T> = None | Some(value: T)

  datatype Result<+T, +E> = Ok(value: T) | Err(error: E)

  /** No element occurs twice. */
  predicate Distinct<T(==)>(s: seq<T>) {
    forall i, j :: 0 <= i < j < |s| ==> s[i] != s[j]
  }

  /** `list(dict.fromkeys(s))`: first occurrences, in order. */
  function Dedup<T(==)>(s: seq<T>): seq<T> {
    if s == [] then []
    else
      var rest := Dedup(s[..|s| - 1]);
      var x := s[|s| - 1];
      if x in rest then rest else rest + [x]
  }

  lemma {:induction false} DedupKeepsMembers<T>(s: seq<T>)
    ensures Distinct(Dedup(s))
    ensures forall x :: x in Dedup(s) <==> x in s
  {
    if s != [] {
      DedupKeepsMembers(s[..|s| - 1]);
      assert s == s[..|s| - 1] + [s[|s| - 1]];
    }
  }

  /** `sub` is obtained from `s` by keeping the positions listed in `at`, in order. */
  ghost predicate Selects<T>(s: seq<T>, sub: seq<T>, at: seq<nat>) {
    && |at| == |sub|
    && (forall k :: 0 <= k < |at| ==> at[k] < |s| && sub[k] == s[at[k]])
    && (forall j, k :: 0 <= j < k < |at| ==> at[j] < at[k])
  }

  /** `sub` is an order-preserving subsequence of `s`. */
  ghost predicate IsSubsequence<T>(sub: seq<T>, s: seq<T>) {
    exists at: seq<nat> :: Selects(s, sub, at)
  }

  lemma SubsequenceRefl<T>(s: seq<T>)
    ensures IsSubsequence(s, s)
  {
    var at: seq<nat> := seq(|s|, i => i);
    assert Selects(s, s, at);
  }

  lemma EmptySubsequence<T>(s: seq<T>)
    ensures IsSubsequence([], s)
  {
    var none: seq<T> := [];
    assert Selects(s, none, []);
  }

  lemma SubsequenceConcat<T>(a: seq<T>, s: seq<T>, b: seq<T>, t: seq<T>)
    requires IsSubsequence(a, s) && IsSubsequence(b, t)
    ensures IsSubsequence(a + b, s + t)
  {
    var at: seq<nat> :| Selects(s, a, at);
    var bt: seq<nat> :| Selects(t, b, bt);
    var ct: seq<nat> := seq(|bt|, i requires 0 <= i < |bt| => |s| + bt[i]);
    assert Selects(s + t, a + b, at + ct);
  }
}
