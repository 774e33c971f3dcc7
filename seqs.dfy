/** Sequence helpers shared by the filters of the model. */
module Seqs {
  /** The images under `f` of the elements that `keep` accepts, in order. */
  function FilterMap<T, U>(s: seq<T>, keep: T -> bool, f: T -> U): (r: seq<U>)
    ensures |r| <= |s|
  {
    if s == [] then []
    else FilterMap(s[..|s| - 1], keep, f) + if keep(s[|s| - 1]) then [f(s[|s| - 1])] else []
  }

  lemma {:induction false} FilterMapMembers<T, U>(s: seq<T>, keep: T -> bool, f: T -> U)
    ensures forall y :: y in FilterMap(s, keep, f) <==> exists i :: 0 <= i < |s| && keep(s[i]) && y == f(s[i])
  {
    if s != [] {
      var init := s[..|s| - 1];
      FilterMapMembers(init, keep, f);
      forall y ensures y in FilterMap(s, keep, f) <==> exists i :: 0 <= i < |s| && keep(s[i]) && y == f(s[i]) {
        if y in FilterMap(init, keep, f) {
          var i :| 0 <= i < |init| && keep(init[i]) && y == f(init[i]);
          assert s[i] == init[i];
        }
        if exists i :: 0 <= i < |s| && keep(s[i]) && y == f(s[i]) {
          var i :| 0 <= i < |s| && keep(s[i]) && y == f(s[i]);
          if i < |init| {
            assert init[i] == s[i];
          }
        }
      }
    }
  }

  lemma EmptyIffNoMembers<T>(s: seq<T>)
    ensures s == [] <==> forall x :: x !in s
  {
    if s != [] {
      assert s[0] in s;
    }
  }

  /** A non-empty sequence is its front followed by its last element. */
  lemma InitLast<T>(s: seq<T>)
    requires s != []
    ensures s[..|s| - 1] + [s[|s| - 1]] == s
    ensures forall i :: 0 <= i < |s| - 1 ==> s[..|s| - 1][i] == s[i]
  {
  }

  /** An element of four joined sequences is in one of them. */
  lemma InConcat4<T>(a: seq<T>, b: seq<T>, c: seq<T>, d: seq<T>, x: T)
    ensures x in a + b + c + d <==> x in a || x in b || x in c || x in d
  {
  }

  lemma PairConcat<T>(a: T, b: T)
    ensures [a] + [b] == [a, b]
  {
  }

  /** Concatenation regroups freely. */
  lemma ConcatAssoc<T>(a: seq<T>, b: seq<T>, c: seq<T>)
    ensures (a + b) + c == a + (b + c)
  {
  }
}
