/** Sequence helpers that stand for the JavaScript array methods the editor
    uses on its clip and track lists: `filter`, `find`, and `Option` for
    `undefined`/`null` results. */
module Seqs {

  datatype Option<+T> = None | Some(value: T)

  /** `r` is an order-preserving subsequence of `s`. */
  ghost predicate IsSubsequence<T>(r: seq<T>, s: seq<T>)
    decreases |s|
  {
    if r == [] then true
    else if s == [] then false
    else (r[0] == s[0] && IsSubsequence(r[1..], s[1..])) || IsSubsequence(r, s[1..])
  }

  /** The facts `Filter` promises about `r` as a filtering of `s` by `keep`. */
  ghost predicate FilteredFrom<T>(r: seq<T>, s: seq<T>, keep: T -> bool) {
    && |r| <= |s|
    && (forall i :: 0 <= i < |r| ==> r[i] in s && keep(r[i]))
    && (forall i :: 0 <= i < |s| && keep(s[i]) ==> s[i] in r)
    && IsSubsequence(r, s)
    && multiset(r) <= multiset(s)
    && (forall i :: 0 <= i < |s| && keep(s[i]) ==> multiset(r)[s[i]] == multiset(s)[s[i]])
  }

  /** `Array.prototype.filter`: the elements of `s` that satisfy `keep`,
      in their original order, each as often as it occurs in `s`. */
  function Filter<T>(s: seq<T>, keep: T -> bool): (r: seq<T>)
    ensures |r| <= |s|
    ensures forall i :: 0 <= i < |r| ==> r[i] in s && keep(r[i])
    ensures forall i :: 0 <= i < |s| && keep(s[i]) ==> s[i] in r
    ensures IsSubsequence(r, s)
    ensures multiset(r) <= multiset(s)
    ensures forall i :: 0 <= i < |s| && keep(s[i]) ==> multiset(r)[s[i]] == multiset(s)[s[i]]
    decreases |s|
  {
    if s == [] then []
    else
      var rest := Filter(s[1..], keep);
      var r := if keep(s[0]) then [s[0]] + rest else rest;
      FilterStep(s, keep, rest, r);
      r
  }

  /** One step of `Filter`: keeping or dropping the head of `s` preserves
      the filtering facts. */
  lemma FilterStep<T>(s: seq<T>, keep: T -> bool, rest: seq<T>, r: seq<T>)
    requires s != [] && FilteredFrom(rest, s[1..], keep)
    requires r == if keep(s[0]) then [s[0]] + rest else rest
    ensures FilteredFrom(r, s, keep)
  {
    var t := s[1..];
    assert s == [s[0]] + t;
    assert IsSubsequence(r, s) by {
      if keep(s[0]) {
        assert r[0] == s[0] && r[1..] == rest;
      } else if r != [] {
        assert IsSubsequence(r, t);
      }
    }
    assert forall i :: 0 <= i < |r| ==> keep(r[i]) by {
      if keep(s[0]) {
        forall i | 0 < i < |r| ensures keep(r[i]) {
          assert r[i] == rest[i - 1];
        }
      }
    }
    StepCounts(s, keep, rest, r);
    CountsGiveMembers(r, s, keep);
  }

  lemma StepCounts<T>(s: seq<T>, keep: T -> bool, rest: seq<T>, r: seq<T>)
    requires s != []
    requires multiset(rest) <= multiset(s[1..])
    requires forall i :: 0 <= i < |s[1..]| && keep(s[1..][i]) ==> multiset(rest)[s[1..][i]] == multiset(s[1..])[s[1..][i]]
    requires r == if keep(s[0]) then [s[0]] + rest else rest
    ensures multiset(r) <= multiset(s)
    ensures forall i :: 0 <= i < |s| && keep(s[i]) ==> multiset(r)[s[i]] == multiset(s)[s[i]]
  {
    var t := s[1..];
    assert s == [s[0]] + t;
    assert multiset(s) == multiset{s[0]} + multiset(t);
    forall i | 0 <= i < |s| && keep(s[i])
      ensures multiset(r)[s[i]] == multiset(s)[s[i]]
    {
      var x := s[i];
      if x in t {
        var j :| 0 <= j < |t| && t[j] == x;
        assert multiset(rest)[x] == multiset(t)[x];
      } else {
        assert multiset(t)[x] == 0;
        assert multiset(rest)[x] == 0;
      }
    }
  }

  /** Counts that agree with `s` on the kept elements, and never exceed
      them, give membership both ways. */
  lemma CountsGiveMembers<T>(r: seq<T>, s: seq<T>, keep: T -> bool)
    requires multiset(r) <= multiset(s)
    requires forall i :: 0 <= i < |s| && keep(s[i]) ==> multiset(r)[s[i]] == multiset(s)[s[i]]
    ensures forall i :: 0 <= i < |r| ==> r[i] in s
    ensures forall i :: 0 <= i < |s| && keep(s[i]) ==> s[i] in r
  {
    forall i | 0 <= i < |r| ensures r[i] in s {
      assert r[i] in multiset(r);
    }
    forall i | 0 <= i < |s| && keep(s[i]) ensures s[i] in r {
      assert s[i] in multiset(s);
    }
  }

  /** `Array.prototype.find`: the first element of `s` that satisfies `test`. */
  function Find<T>(s: seq<T>, test: T -> bool): (r: Option<T>)
    ensures r.None? <==> forall i :: 0 <= i < |s| ==> !test(s[i])
    ensures r.Some? ==> exists i :: 0 <= i < |s| && s[i] == r.value && test(s[i]) &&
                                    forall j :: 0 <= j < i ==> !test(s[j])
    decreases |s|
  {
    if s == [] then None
    else if test(s[0]) then Some(s[0])
    else
      var r := Find(s[1..], test);
      assert r.Some? ==> exists i :: 1 <= i < |s| && s[i] == r.value && test(s[i]) &&
                                     forall j :: 0 <= j < i ==> !test(s[j]) by {
        if r.Some? {
          var i :| 0 <= i < |s[1..]| && s[1..][i] == r.value && test(s[1..][i]) &&
                   forall j :: 0 <= j < i ==> !test(s[1..][j]);
          assert s[i + 1] == r.value;
        }
      }
      r
  }

  /** Filtering twice is filtering once by the conjunction. */
  lemma {:induction false} FilterFilter<T>(s: seq<T>, p: T -> bool, q: T -> bool, pq: T -> bool)
    requires forall x :: pq(x) == (p(x) && q(x))
    ensures Filter(Filter(s, p), q) == Filter(s, pq)
    decreases |s|
  {
    if s != [] {
      FilterFilter(s[1..], p, q, pq);
      if p(s[0]) {
        assert ([s[0]] + Filter(s[1..], p))[1..] == Filter(s[1..], p);
      }
    }
  }

  /** Looking for the first element in a filtered list is looking for the
      first element satisfying both tests. */
  lemma {:induction false} FindFilter<T>(s: seq<T>, p: T -> bool, q: T -> bool, pq: T -> bool)
    requires forall x :: pq(x) == (p(x) && q(x))
    ensures Find(Filter(s, p), q) == Find(s, pq)
    decreases |s|
  {
    if s != [] {
      FindFilter(s[1..], p, q, pq);
      if p(s[0]) {
        assert ([s[0]] + Filter(s[1..], p))[1..] == Filter(s[1..], p);
      }
    }
  }

  /** Keys pairwise distinct. */
  ghost predicate DistinctKeys<T, K>(s: seq<T>, key: T -> K) {
    forall i, j :: 0 <= i < j < |s| ==> key(s[i]) != key(s[j])
  }

  /** Filtering keeps pairwise distinct keys pairwise distinct. */
  lemma {:induction false} FilterKeepsDistinctKeys<T, K>(s: seq<T>, keep: T -> bool, key: T -> K)
    requires DistinctKeys(s, key)
    ensures DistinctKeys(Filter(s, keep), key)
    decreases |s|
  {
    if s != [] {
      var t := s[1..];
      TailDistinct(s, key);
      FilterKeepsDistinctKeys(t, keep, key);
      var rest := Filter(t, keep);
      if keep(s[0]) {
        MembersAvoidKey(rest, t, s[0], key);
        ConsDistinct(s[0], rest, key);
        assert Filter(s, keep) == [s[0]] + rest;
      } else {
        assert Filter(s, keep) == rest;
      }
    }
  }

  lemma TailDistinct<T, K>(s: seq<T>, key: T -> K)
    requires s != [] && DistinctKeys(s, key)
    ensures DistinctKeys(s[1..], key)
    ensures forall j :: 0 <= j < |s[1..]| ==> key(s[1..][j]) != key(s[0])
  {
    var t := s[1..];
    forall i, j | 0 <= i < j < |t| ensures key(t[i]) != key(t[j]) {
      assert t[i] == s[i + 1] && t[j] == s[j + 1];
    }
    forall j | 0 <= j < |t| ensures key(t[j]) != key(s[0]) {
      assert t[j] == s[j + 1];
    }
  }

  lemma MembersAvoidKey<T, K>(r: seq<T>, t: seq<T>, x: T, key: T -> K)
    requires forall i :: 0 <= i < |r| ==> r[i] in t
    requires forall j :: 0 <= j < |t| ==> key(t[j]) != key(x)
    ensures forall i :: 0 <= i < |r| ==> key(r[i]) != key(x)
  {
    forall i | 0 <= i < |r| ensures key(r[i]) != key(x) {
      var j :| 0 <= j < |t| && t[j] == r[i];
    }
  }

  lemma ConsDistinct<T, K>(x: T, r: seq<T>, key: T -> K)
    requires DistinctKeys(r, key)
    requires forall i :: 0 <= i < |r| ==> key(r[i]) != key(x)
    ensures DistinctKeys([x] + r, key)
  {
    var c := [x] + r;
    forall i, j | 0 <= i < j < |c| ensures key(c[i]) != key(c[j]) {
      assert c[j] == r[j - 1];
      if i > 0 {
        assert c[i] == r[i - 1];
      }
    }
  }
}
