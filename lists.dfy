/** Sequence operations the pages use: `Array.prototype.filter` and the
    insertion-ordered de-duplication of `[...new Set(xs)]`. */
module Lists {

  /** `a` is `b` with some elements deleted and the rest kept in order. */
  ghost predicate IsSubsequence<T>(a: seq<T>, b: seq<T>)
    decreases |b|
  {
    if b == [] then a == []
    else (a != [] && a[0] == b[0] && IsSubsequence(a[1..], b[1..])) || IsSubsequence(a, b[1..])
  }

  lemma {:induction false} SubsequenceOfItself<T>(s: seq<T>)
    ensures IsSubsequence(s, s)
    decreases |s|
  {
    if s != [] {
      SubsequenceOfItself(s[1..]);
    }
  }

  lemma AppendAssociative<T>(a: seq<T>, b: seq<T>, c: seq<T>)
    ensures a + (b + c) == (a + b) + c
  {
  }

  predicate NoDuplicates<T(==)>(s: seq<T>) {
    forall i, j :: 0 <= i < j < |s| ==> s[i] != s[j]
  }

  /** `xs.filter(keep)`: the elements that pass, in their original order. */
  function Filter<T(!new)>(s: seq<T>, keep: T -> bool): (r: seq<T>)
    ensures |r| <= |s|
    ensures forall x :: x in r <==> x in s && keep(x)
    decreases |s|
  {
    if s == [] then []
    else
      var rest := Filter(s[1..], keep);
      assert s == [s[0]] + s[1..];
      if keep(s[0]) then [s[0]] + rest else rest
  }

  /** Each element that passes keeps its number of occurrences; the others
      have none. */
  lemma {:induction false} FilterCount<T(!new)>(s: seq<T>, keep: T -> bool)
    ensures forall x :: multiset(Filter(s, keep))[x] == if keep(x) then multiset(s)[x] else 0
    decreases |s|
  {
    if s != [] {
      FilterCons(s, keep);
      FilterCount(s[1..], keep);
      assert s == [s[0]] + s[1..];
    }
  }

  /** What passes is `s` with the rest deleted, in order. */
  lemma {:induction false} FilterIsSubsequence<T(!new)>(s: seq<T>, keep: T -> bool)
    ensures IsSubsequence(Filter(s, keep), s)
    decreases |s|
  {
    if s != [] {
      FilterCons(s, keep);
      FilterIsSubsequence(s[1..], keep);
      if keep(s[0]) {
        var r := Filter(s, keep);
        assert r[0] == s[0] && r[1..] == Filter(s[1..], keep);
      }
    }
  }

  /** When everything passes, nothing is removed. */
  lemma {:induction false} FilterAllKept<T(!new)>(s: seq<T>, keep: T -> bool)
    requires forall i :: 0 <= i < |s| ==> keep(s[i])
    ensures Filter(s, keep) == s
    decreases |s|
  {
    if s != [] {
      FilterCons(s, keep);
      FilterAllKept(s[1..], keep);
      assert s == [s[0]] + s[1..];
    }
  }

  lemma {:induction false} FilterConcat<T(!new)>(a: seq<T>, b: seq<T>, keep: T -> bool)
    ensures Filter(a + b, keep) == Filter(a, keep) + Filter(b, keep)
    decreases |a|
  {
    if a != [] {
      var ab := a + b;
      assert ab != [] && ab[0] == a[0] && ab[1..] == a[1..] + b;
      var head := if keep(a[0]) then [a[0]] else [];
      FilterCons(ab, keep);
      FilterCons(a, keep);
      FilterConcat(a[1..], b, keep);
      assert Filter(ab, keep) == head + (Filter(a[1..], keep) + Filter(b, keep));
      assert Filter(a, keep) == head + Filter(a[1..], keep);
    } else {
      assert a + b == b;
    }
  }

  lemma FilterCons<T(!new)>(s: seq<T>, keep: T -> bool)
    requires s != []
    ensures Filter(s, keep) == (if keep(s[0]) then [s[0]] else []) + Filter(s[1..], keep)
  {
  }

  lemma FilterNoDuplicates<T(!new)>(s: seq<T>, keep: T -> bool)
    requires NoDuplicates(s)
    ensures NoDuplicates(Filter(s, keep))
  {
    var r := Filter(s, keep);
    FilterCount(s, keep);
    forall x | x in r
      ensures multiset(r)[x] == 1
    {
      CountAtMostOne(s, x);
    }
    forall i, j | 0 <= i < j < |r|
      ensures r[i] != r[j]
    {
      if r[i] == r[j] {
        TwoPositionsCountTwice(r, i, j);
        assert false;
      }
    }
  }

  lemma {:induction false} CountAtMostOne<T>(s: seq<T>, x: T)
    requires NoDuplicates(s)
    ensures multiset(s)[x] <= 1
    decreases |s|
  {
    if s != [] {
      assert s == [s[0]] + s[1..];
      CountAtMostOne(s[1..], x);
      if s[0] == x {
        assert x !in s[1..] by {
          forall k | 0 <= k < |s[1..]| ensures s[1..][k] != x {
            assert s[1..][k] == s[k + 1];
          }
        }
      }
    }
  }

  lemma TwoPositionsCountTwice<T>(s: seq<T>, i: nat, j: nat)
    requires i < j < |s| && s[i] == s[j]
    ensures multiset(s)[s[i]] >= 2
  {
    assert s == s[..j] + s[j..];
    assert s[i] in s[..j];
    assert s[j] in s[j..];
  }

  /** The elements of `acc` followed by those of `s` that are not already
      present, each first occurrence kept in its position: the order in
      which a JavaScript `Set` built from `acc + s` iterates. */
  function DedupOnto<T(==,!new)>(acc: seq<T>, s: seq<T>): (r: seq<T>)
    requires NoDuplicates(acc)
    ensures NoDuplicates(r)
    ensures forall x :: x in r <==> x in acc || x in s
    ensures |acc| <= |r| && r[..|acc|] == acc
    ensures NoDuplicates(acc + s) ==> r == acc + s
    decreases |s|
  {
    if s == [] then
      assert acc + s == acc;
      acc
    else
      var next := if s[0] in acc then acc else acc + [s[0]];
      assert acc + s == (acc + [s[0]]) + s[1..];
      assert NoDuplicates(acc + s) ==> s[0] !in acc && NoDuplicates(next + s[1..]) by {
        if NoDuplicates(acc + s) {
          assert (acc + s)[|acc|] == s[0];
          forall k | 0 <= k < |acc| ensures acc[k] != s[0] {
            assert (acc + s)[k] == acc[k];
          }
        }
      }
      var r := DedupOnto(next, s[1..]);
      assert r[..|acc|] == r[..|next|][..|acc|];
      r
  }

  /** `[...new Set(s)]`. */
  function Dedup<T(==,!new)>(s: seq<T>): (r: seq<T>)
    ensures NoDuplicates(r)
    ensures forall x :: x in r <==> x in s
    ensures NoDuplicates(s) ==> r == s
  {
    assert [] + s == s;
    DedupOnto([], s)
  }

  lemma {:induction false} DedupOntoAppend<T(!new)>(acc: seq<T>, a: seq<T>, b: seq<T>)
    requires NoDuplicates(acc)
    ensures DedupOnto(acc, a + b) == DedupOnto(DedupOnto(acc, a), b)
    decreases |a|
  {
    if a == [] {
      assert a + b == b;
    } else {
      assert (a + b)[0] == a[0] && (a + b)[1..] == a[1..] + b;
      var next := if a[0] in acc then acc else acc + [a[0]];
      DedupOntoAppend(next, a[1..], b);
    }
  }

  /** De-duplicating `prev + more` when `prev` has no duplicate keeps `prev`
      as the prefix and adds only elements of `more` not yet present. */
  lemma DedupKeepsPrefix<T(!new)>(prev: seq<T>, more: seq<T>)
    requires NoDuplicates(prev)
    ensures Dedup(prev + more) == DedupOnto(prev, more)
  {
    assert [] + prev == prev;
    DedupOntoAppend([], prev, more);
    assert DedupOnto([], prev) == prev;
  }
}
