/**
 * Generic sequence operations that the reducers, the mock backend and the
 * list selectors are built from: the JavaScript array methods `filter`,
 * `findIndex`, `splice(i, 1)` and de-duplication through a
 * `Set`, each with the contract that the callers rely on.
 */
module Common {

  datatype Option<+T> = None | Some(value: T) {
    /** `value ?? default` */
    function GetOr(default: T): T {
      match this
      case Some(v) => v
      case None => default
    }
  }

  /** No element occurs twice. */
  predicate NoDuplicates<T(==)>(s: seq<T>) {
    forall i, j :: 0 <= i < j < |s| ==> s[i] != s[j]
  }

  /** r is obtained from s by deleting elements; the rest keep their relative order. */
  predicate IsSubsequence<T(==)>(r: seq<T>, s: seq<T>)
    decreases |s|
  {
    if r == [] then true
    else if s == [] then false
    else (r[0] == s[0] && IsSubsequence(r[1..], s[1..])) || IsSubsequence(r, s[1..])
  }

  /**
   * r lists its elements in the order in which they FIRST occur in s: whenever
   * r[j] occurs at position k of s, every earlier entry r[i] already occurred
   * before k.
   */
  predicate FirstOccurrenceOrder<T(==)>(r: seq<T>, s: seq<T>) {
    forall i, j, k :: 0 <= i < j < |r| && 0 <= k < |s| && s[k] == r[j] ==> r[i] in s[..k]
  }

  /** `s.filter(keep)` */
  function Filter<T(==)>(s: seq<T>, keep: T -> bool): (r: seq<T>)
    ensures |r| <= |s|
    ensures forall i :: 0 <= i < |r| ==> r[i] in s && keep(r[i])
    ensures forall i :: 0 <= i < |s| && keep(s[i]) ==> s[i] in r
    ensures IsSubsequence(r, s)
    ensures (forall i :: 0 <= i < |s| ==> keep(s[i])) ==> r == s
  {
    if s == [] then []
    else if keep(s[0]) then [s[0]] + Filter(s[1..], keep)
    else Filter(s[1..], keep)
  }

  /**
   * Filter keeps multiplicity: an element that passes occurs in the result as
   * often as in the input, one that fails does not occur at all.
   */
  lemma {:induction false} FilterCounts<T>(s: seq<T>, keep: T -> bool)
    ensures forall i :: 0 <= i < |s| ==>
              multiset(Filter(s, keep))[s[i]] == if keep(s[i]) then multiset(s)[s[i]] else 0
    decreases |s|
  {
    if s != [] {
      var rest := Filter(s[1..], keep);
      FilterCounts(s[1..], keep);
      CountStep(s, rest, Filter(s, keep), keep);
    }
  }

  /** The multiplicity clause of Filter, for one more element at the front. */
  lemma CountStep<T>(s: seq<T>, rest: seq<T>, r: seq<T>, keep: T -> bool)
    requires s != []
    requires forall i :: 0 <= i < |rest| ==> rest[i] in s[1..]
    requires forall i :: 1 <= i < |s| ==> multiset(rest)[s[i]] == if keep(s[i]) then multiset(s[1..])[s[i]] else 0
    requires r == if keep(s[0]) then [s[0]] + rest else rest
    ensures forall i :: 0 <= i < |s| ==> multiset(r)[s[i]] == if keep(s[i]) then multiset(s)[s[i]] else 0
  {
    forall i | 0 <= i < |s|
      ensures multiset(r)[s[i]] == if keep(s[i]) then multiset(s)[s[i]] else 0
    {
      var x := s[i];
      if 0 < i {
        assert x == s[1..][i - 1];
      } else if x in s[1..] {
        var j :| 0 <= j < |s[1..]| && s[1..][j] == x;
        assert s[j + 1] == x;
      } else {
        assert x !in rest;
      }
      CountOne(s, rest, r, keep, x);
    }
  }

  /** One element's count after Filter takes one more element at the front. */
  lemma CountOne<T>(s: seq<T>, rest: seq<T>, r: seq<T>, keep: T -> bool, x: T)
    requires s != []
    requires multiset(rest)[x] == if keep(x) then multiset(s[1..])[x] else 0
    requires r == if keep(s[0]) then [s[0]] + rest else rest
    ensures multiset(r)[x] == if keep(x) then multiset(s)[x] else 0
  {
    assert s == [s[0]] + s[1..];
    assert multiset(s) == multiset{s[0]} + multiset(s[1..]);
  }

  /** `s.findIndex(matches)`: the first index whose element matches, or -1. */
  function FindIndex<T>(s: seq<T>, matches: T -> bool): (r: int)
    ensures -1 <= r < |s|
    ensures r == -1 <==> forall i :: 0 <= i < |s| ==> !matches(s[i])
    ensures 0 <= r ==> matches(s[r]) && forall i :: 0 <= i < r ==> !matches(s[i])
  {
    if s == [] then -1
    else if matches(s[0]) then 0
    else
      var k := FindIndex(s[1..], matches);
      if k == -1 then -1 else k + 1
  }

  /** `s.splice(i, 1)` as a value: the element at i is dropped. */
  function RemoveAt<T>(s: seq<T>, i: nat): (r: seq<T>)
    requires i < |s|
    ensures |r| == |s| - 1
    ensures forall j :: 0 <= j < i ==> r[j] == s[j]
    ensures forall j :: i <= j < |r| ==> r[j] == s[j + 1]
  {
    s[..i] + s[i + 1..]
  }

  /**
   * `Array.from(new Set(s))`: the distinct elements of s, each kept where it
   * first occurs (a Set iterates in insertion order).
   */
  function Distinct<T(==)>(s: seq<T>): (r: seq<T>)
    ensures NoDuplicates(r)
    ensures forall i :: 0 <= i < |r| ==> r[i] in s
    ensures forall i :: 0 <= i < |s| ==> s[i] in r
    ensures FirstOccurrenceOrder(r, s)
  {
    if s == [] then []
    else
      var prefix, x := s[..|s| - 1], s[|s| - 1];
      assert s == prefix + [x];
      var d := Distinct(prefix);
      var r := if x in d then d else d + [x];
      forall i, j, k | 0 <= i < j < |r| && 0 <= k < |s| && s[k] == r[j]
        ensures r[i] in s[..k]
      {
        if k < |prefix| {
          assert s[..k] == prefix[..k];
          assert prefix[k] == r[j];
          if x !in d && j == |d| {
            assert false;
          }
        } else {
          assert s[..k] == prefix;
        }
      }
      r
  }

  /** Filtering distributes over concatenation, so it keeps the relative order. */
  lemma {:induction false} FilterConcat<T>(a: seq<T>, b: seq<T>, keep: T -> bool)
    ensures Filter(a + b, keep) == Filter(a, keep) + Filter(b, keep)
    decreases |a|
  {
    if a != [] {
      var ab := a + b;
      assert ab[0] == a[0] && ab[1..] == a[1..] + b;
      FilterConcat(a[1..], b, keep);
      if keep(a[0]) {
        assert Filter(ab, keep) == [a[0]] + Filter(a[1..] + b, keep);
        assert Filter(a, keep) == [a[0]] + Filter(a[1..], keep);
      } else {
        assert Filter(ab, keep) == Filter(a[1..] + b, keep);
        assert Filter(a, keep) == Filter(a[1..], keep);
      }
    } else {
      assert a + b == b;
    }
  }

  lemma {:induction false} SubsequenceReflexive<T>(s: seq<T>)
    ensures IsSubsequence(s, s)
    decreases |s|
  {
    if s != [] {
      SubsequenceReflexive(s[1..]);
    }
  }

  /** splice(i, 1) keeps the order of the remaining elements. */
  lemma {:induction false} RemoveAtIsSubsequence<T>(s: seq<T>, i: nat)
    requires i < |s|
    ensures IsSubsequence(RemoveAt(s, i), s)
    decreases i
  {
    var r := RemoveAt(s, i);
    if i == 0 {
      assert r == s[1..];
      SubsequenceReflexive(s[1..]);
    } else {
      RemoveAtIsSubsequence(s[1..], i - 1);
      assert r[0] == s[0];
      assert r[1..] == RemoveAt(s[1..], i - 1);
    }
  }

  /** A subsequence of a sequence without duplicates has none either. */
  lemma {:induction false} SubsequencePreservesNoDuplicates<T>(r: seq<T>, s: seq<T>)
    requires IsSubsequence(r, s) && NoDuplicates(s)
    ensures NoDuplicates(r)
    decreases |s|
  {
    if r != [] {
      assert s != [];
      assert NoDuplicates(s[1..]) by {
        forall i, j | 0 <= i < j < |s[1..]| ensures s[1..][i] != s[1..][j] {
          assert s[1..][i] == s[i + 1] && s[1..][j] == s[j + 1];
        }
      }
      if r[0] == s[0] && IsSubsequence(r[1..], s[1..]) {
        SubsequencePreservesNoDuplicates(r[1..], s[1..]);
        SubsequenceMembers(r[1..], s[1..]);
        assert s[0] !in s[1..] by {
          forall k | 0 <= k < |s[1..]| ensures s[1..][k] != s[0] {
            assert s[1..][k] == s[k + 1];
          }
        }
        forall i, j | 0 <= i < j < |r| ensures r[i] != r[j] {
          if i == 0 {
            assert r[j] == r[1..][j - 1];
            assert r[j] in s[1..];
          } else {
            assert r[i] == r[1..][i - 1] && r[j] == r[1..][j - 1];
          }
        }
      } else {
        SubsequencePreservesNoDuplicates(r, s[1..]);
      }
    }
  }

  /** Every element of a subsequence is an element of the sequence. */
  lemma {:induction false} SubsequenceMembers<T>(r: seq<T>, s: seq<T>)
    requires IsSubsequence(r, s)
    ensures forall x :: x in r ==> x in s
    decreases |s|
  {
    if r != [] {
      if r[0] == s[0] && IsSubsequence(r[1..], s[1..]) {
        SubsequenceMembers(r[1..], s[1..]);
        forall x | x in r ensures x in s {
          if x != r[0] {
            assert x in r[1..];
            assert x in s[1..];
          }
        }
      } else {
        SubsequenceMembers(r, s[1..]);
      }
    }
  }
}
