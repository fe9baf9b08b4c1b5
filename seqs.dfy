/**
 * JavaScript's `Array.prototype.filter`, the one list operation behind removing
 * a technology by value, removing an achievement by position, deleting a row
 * from an admin list and the category filters of the public sections.
 */
module Seqs {

  /** `s.filter(keep)`: the elements of `s` that `keep` accepts, in their original order. */
  function Filter<T>(s: seq<T>, keep: T -> bool): (r: seq<T>)
    ensures |r| <= |s|
  {
    if s == [] then []
    else (if keep(s[0]) then [s[0]] else []) + Filter(s[1..], keep)
  }

  /** What survives a filter is exactly the elements of `s` that `keep` accepts. */
  lemma {:induction false} FilterMembers<T>(s: seq<T>, keep: T -> bool)
    ensures forall i :: 0 <= i < |Filter(s, keep)| ==> Filter(s, keep)[i] in s && keep(Filter(s, keep)[i])
    ensures forall i :: 0 <= i < |s| && keep(s[i]) ==> s[i] in Filter(s, keep)
  {
    if s != [] {
      FilterMembers(s[1..], keep);
    }
  }

  /** `a` is obtained from `b` by deleting elements, without reordering what is left. */
  ghost predicate IsSubsequence<T>(a: seq<T>, b: seq<T>)
    decreases |b|
  {
    a == [] || (b != [] && if a[0] == b[0] then IsSubsequence(a[1..], b[1..]) else IsSubsequence(a, b[1..]))
  }

  /** No value occurs twice. */
  ghost predicate Distinct<T>(s: seq<T>) {
    forall i, j :: 0 <= i < j < |s| ==> s[i] != s[j]
  }

  /** Dropping the first element of a subsequence leaves a subsequence. */
  lemma {:induction false} SubsequenceDropFirst<T>(a: seq<T>, b: seq<T>)
    requires a != [] && IsSubsequence(a, b)
    ensures IsSubsequence(a[1..], b)
    decreases |b|, 0
  {
    if a[0] == b[0] {
      if a[1..] != [] {
        SubsequenceExtend(a[1..], b[1..], b[0]);
      }
    } else {
      SubsequenceDropFirst(a, b[1..]);
      if a[1..] != [] {
        SubsequenceExtend(a[1..], b[1..], b[0]);
      }
    }
  }

  /** A subsequence of the tail is a subsequence of the whole. */
  lemma {:induction false} SubsequenceExtend<T>(a: seq<T>, b: seq<T>, x: T)
    requires IsSubsequence(a, b)
    ensures IsSubsequence(a, [x] + b)
    decreases |b|, 1
  {
    var xb := [x] + b;
    assert xb[1..] == b;
    if a != [] && a[0] == x {
      SubsequenceDropFirst(a, b);
    }
  }

  /** Filtering keeps the survivors in their original order. */
  lemma {:induction false} FilterIsSubsequence<T>(s: seq<T>, keep: T -> bool)
    ensures IsSubsequence(Filter(s, keep), s)
  {
    if s != [] {
      var rest := Filter(s[1..], keep);
      FilterIsSubsequence(s[1..], keep);
      if keep(s[0]) {
        assert Filter(s, keep) == [s[0]] + rest;
        assert ([s[0]] + rest)[1..] == rest;
      } else {
        assert Filter(s, keep) == rest;
        SubsequenceExtend(rest, s[1..], s[0]);
        assert [s[0]] + s[1..] == s;
      }
    }
  }

  /**
   * Filtering keeps every accepted element as often as it occurred and drops
   * every other one: with the order kept, this pins the result down.
   */
  lemma {:induction false} FilterCounts<T>(s: seq<T>, keep: T -> bool, x: T)
    ensures multiset(Filter(s, keep))[x] == if keep(x) then multiset(s)[x] else 0
  {
    if s != [] {
      FilterCounts(s[1..], keep, x);
      assert s == [s[0]] + s[1..];
      assert multiset(s) == multiset{s[0]} + multiset(s[1..]);
    }
  }

  /** Filtering a concatenation filters each part. */
  lemma {:induction false} FilterAppend<T>(s: seq<T>, t: seq<T>, keep: T -> bool)
    ensures Filter(s + t, keep) == Filter(s, keep) + Filter(t, keep)
  {
    if s == [] {
      assert s + t == t;
    } else {
      var st := s + t;
      assert st[0] == s[0] && st[1..] == s[1..] + t;
      FilterAppend(s[1..], t, keep);
      var head := if keep(s[0]) then [s[0]] else [];
      assert Filter(st, keep) == head + Filter(s[1..] + t, keep);
      assert Filter(s, keep) == head + Filter(s[1..], keep);
    }
  }

  /** A filter that accepts every element changes nothing. */
  lemma {:induction false} FilterKeepsAll<T>(s: seq<T>, keep: T -> bool)
    requires forall i :: 0 <= i < |s| ==> keep(s[i])
    ensures Filter(s, keep) == s
  {
    if s != [] {
      assert forall i :: 0 <= i < |s[1..]| ==> s[1..][i] == s[i + 1];
      FilterKeepsAll(s[1..], keep);
      assert [s[0]] + s[1..] == s;
    }
  }

  /** A filter that rejects every element leaves nothing. */
  lemma {:induction false} FilterRejectsAll<T>(s: seq<T>, keep: T -> bool)
    requires forall i :: 0 <= i < |s| ==> !keep(s[i])
    ensures Filter(s, keep) == []
  {
    if s != [] {
      assert forall i :: 0 <= i < |s[1..]| ==> s[1..][i] == s[i + 1];
      FilterRejectsAll(s[1..], keep);
    }
  }

  /** Filtering twice with the same test is filtering once. */
  lemma FilterIdempotent<T>(s: seq<T>, keep: T -> bool)
    ensures Filter(Filter(s, keep), keep) == Filter(s, keep)
  {
    FilterMembers(s, keep);
    FilterKeepsAll(Filter(s, keep), keep);
  }

  /** Filtering never repeats a value that was not repeated. */
  lemma {:induction false} FilterKeepsDistinct<T>(s: seq<T>, keep: T -> bool)
    requires Distinct(s)
    ensures Distinct(Filter(s, keep))
  {
    if s != [] {
      var rest := Filter(s[1..], keep);
      assert Distinct(s[1..]) by {
        forall i, j | 0 <= i < j < |s[1..]| ensures s[1..][i] != s[1..][j] {
          assert s[1..][i] == s[i + 1] && s[1..][j] == s[j + 1];
        }
      }
      FilterKeepsDistinct(s[1..], keep);
      FilterMembers(s[1..], keep);
      if keep(s[0]) {
        var r := [s[0]] + rest;
        forall i, j | 0 <= i < j < |r| ensures r[i] != r[j] {
          if i == 0 {
            assert r[j] == rest[j - 1] && r[j] in rest;
          } else {
            assert r[i] == rest[i - 1] && r[j] == rest[j - 1];
          }
        }
      }
    }
  }

  /** `s.filter((_, i) => i !== index)` run over `s` whose first element sits at position `from`. */
  function FilterIndex<T>(s: seq<T>, index: int, from: int): seq<T>
  {
    if s == [] then []
    else (if from != index then [s[0]] else []) + FilterIndex(s[1..], index, from + 1)
  }

  /** `s.filter((_, i) => i !== index)`: drop the element at position `index`, if there is one. */
  function RemoveAt<T>(s: seq<T>, index: int): seq<T>
  {
    FilterIndex(s, index, 0)
  }

  lemma {:induction false} FilterIndexSpec<T>(s: seq<T>, index: int, from: int)
    ensures FilterIndex(s, index, from)
      == if from <= index < from + |s| then s[..index - from] + s[index - from + 1..] else s
  {
    if s != [] {
      FilterIndexSpec(s[1..], index, from + 1);
      if from == index {
        assert s[..0] + s[1..] == s[1..];
      } else if from < index < from + |s| {
        assert s[..index - from] == [s[0]] + s[1..][..index - from - 1];
        assert s[index - from + 1..] == s[1..][index - from..];
      } else {
        assert [s[0]] + s[1..] == s;
      }
    }
  }

  /**
   * Removing by position drops exactly the element at `index` and keeps the
   * others in order; a position outside the list changes nothing.
   */
  lemma RemoveAtSpec<T>(s: seq<T>, index: int)
    ensures RemoveAt(s, index) == if 0 <= index < |s| then s[..index] + s[index + 1..] else s
    ensures 0 <= index < |s| ==> |RemoveAt(s, index)| == |s| - 1
  {
    FilterIndexSpec(s, index, 0);
  }
}
