/** Order-preserving filtering of sequences: the shape shared by
    `Array.prototype.filter` in the suggestion filters and by the
    `forEach`/`push` grouping of snippets. */
module Seqs {

  /** Keeps the elements of `s` that satisfy `keep`, in their original order.
      Defined from the end so that appending one element to the input
      appends at most one element to the output. */
  function Filter<A(!new)>(s: seq<A>, keep: A -> bool): (r: seq<A>)
    ensures |r| <= |s|
    ensures forall x :: x in r <==> x in s && keep(x)
  {
    if s == [] then []
    else Filter(s[..|s| - 1], keep) + (if keep(s[|s| - 1]) then [s[|s| - 1]] else [])
  }

  /** The positions of `s` whose element satisfies `keep`, ascending. */
  function KeptIndices<A>(s: seq<A>, keep: A -> bool): seq<nat>
  {
    if s == [] then []
    else KeptIndices(s[..|s| - 1], keep) + (if keep(s[|s| - 1]) then [|s| - 1] else [])
  }

  predicate Increasing(xs: seq<nat>)
  {
    forall a, b :: 0 <= a < b < |xs| ==> xs[a] < xs[b]
  }

  /** Filtering one more element at the end filters the prefix and then that element. */
  lemma FilterSnoc<A(!new)>(s: seq<A>, x: A, keep: A -> bool)
    ensures Filter(s + [x], keep) == Filter(s, keep) + (if keep(x) then [x] else [])
  {
    assert (s + [x])[..|s + [x]| - 1] == s;
  }

  /** The kept positions are positions of `s`, one per element of the
      filtered sequence. */
  lemma {:induction false} KeptIndicesBelow<A(!new)>(s: seq<A>, keep: A -> bool)
    ensures |Filter(s, keep)| == |KeptIndices(s, keep)|
    ensures forall k :: 0 <= k < |KeptIndices(s, keep)| ==> KeptIndices(s, keep)[k] < |s|
  {
    if s != [] {
      var n := |s| - 1;
      KeptIndicesBelow(s[..n], keep);
      var ki := KeptIndices(s[..n], keep);
      assert KeptIndices(s, keep) == ki + (if keep(s[n]) then [n] else []);
      assert |Filter(s, keep)| == |Filter(s[..n], keep)| + (if keep(s[n]) then 1 else 0);
    }
  }

  /** The kept positions are ascending. */
  lemma {:induction false} KeptIndicesIncreasing<A(!new)>(s: seq<A>, keep: A -> bool)
    ensures Increasing(KeptIndices(s, keep))
  {
    if s != [] {
      var n := |s| - 1;
      KeptIndicesIncreasing(s[..n], keep);
      KeptIndicesBelow(s[..n], keep);
      var ki := KeptIndices(s[..n], keep);
      var r := ki + (if keep(s[n]) then [n] else []);
      assert KeptIndices(s, keep) == r;
      forall a, b | 0 <= a < b < |r| ensures r[a] < r[b] {
        if b == |ki| { assert r[a] == ki[a]; } else { assert r[a] == ki[a] && r[b] == ki[b]; }
      }
    }
  }

  /** Position `j` is kept exactly when its element satisfies `keep`. */
  lemma {:induction false} KeptAt<A(!new)>(s: seq<A>, keep: A -> bool, j: nat)
    requires j < |s|
    ensures keep(s[j]) <==> j in KeptIndices(s, keep)
  {
    var n := |s| - 1;
    var init := s[..n];
    KeptIndicesBelow(init, keep);
    var ki := KeptIndices(init, keep);
    var r := ki + (if keep(s[n]) then [n] else []);
    assert KeptIndices(s, keep) == r;
    if j == n {
      assert n !in ki;
    } else {
      KeptAt(init, keep, j);
      assert init[j] == s[j];
      assert j in r <==> j in ki;
    }
  }

  /** A position is kept exactly when its element satisfies `keep`. */
  lemma KeptIndicesMembership<A(!new)>(s: seq<A>, keep: A -> bool)
    ensures forall j :: 0 <= j < |s| ==> (keep(s[j]) <==> j in KeptIndices(s, keep))
  {
    forall j | 0 <= j < |s| ensures keep(s[j]) <==> j in KeptIndices(s, keep) {
      KeptAt(s, keep, j);
    }
  }

  /** The `k`-th kept element sits at the `k`-th kept position. */
  lemma {:induction false} FilterAtKept<A(!new)>(s: seq<A>, keep: A -> bool)
    ensures |Filter(s, keep)| == |KeptIndices(s, keep)|
    ensures forall k :: 0 <= k < |KeptIndices(s, keep)| ==>
              KeptIndices(s, keep)[k] < |s| && Filter(s, keep)[k] == s[KeptIndices(s, keep)[k]]
  {
    KeptIndicesBelow(s, keep);
    if s != [] {
      var n := |s| - 1;
      var init := s[..n];
      FilterAtKept(init, keep);
      var f, ki := Filter(init, keep), KeptIndices(init, keep);
      assert Filter(s, keep) == f + (if keep(s[n]) then [s[n]] else []);
      assert KeptIndices(s, keep) == ki + (if keep(s[n]) then [n] else []);
      forall k | 0 <= k < |ki| ensures f[k] == s[ki[k]] {
        assert init[ki[k]] == s[ki[k]];
      }
    }
  }

  /** `Filter` is exactly the subsequence of `s` at the positions `KeptIndices`:
      the positions are ascending (order is preserved), and a position is kept
      if and only if its element satisfies `keep`. */
  lemma FilterIndices<A(!new)>(s: seq<A>, keep: A -> bool)
    ensures |Filter(s, keep)| == |KeptIndices(s, keep)|
    ensures Increasing(KeptIndices(s, keep))
    ensures forall k :: 0 <= k < |KeptIndices(s, keep)| ==>
              KeptIndices(s, keep)[k] < |s| && Filter(s, keep)[k] == s[KeptIndices(s, keep)[k]]
    ensures forall j :: 0 <= j < |s| ==> (keep(s[j]) <==> j in KeptIndices(s, keep))
  {
    KeptIndicesBelow(s, keep);
    KeptIndicesIncreasing(s, keep);
    KeptIndicesMembership(s, keep);
    FilterAtKept(s, keep);
  }

  /** When every element is kept, filtering changes nothing. */
  lemma {:induction false} FilterKeepsAll<A(!new)>(s: seq<A>, keep: A -> bool)
    requires forall i :: 0 <= i < |s| ==> keep(s[i])
    ensures Filter(s, keep) == s
  {
    if s != [] {
      FilterKeepsAll(s[..|s| - 1], keep);
    }
  }
}
