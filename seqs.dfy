/**
 * Sequence operations behind the in-place list updates of the estate model:
 * Python's `list.remove(x)` deletes the first element equal to `x`.
 */
module Seqs {

  /** No element occurs twice in `s`. */
  ghost predicate NoDuplicates<T>(s: seq<T>)
  {
    forall i, j :: 0 <= i < j < |s| ==> s[i] != s[j]
  }

  /** Position of the first occurrence of `x` in `s`. */
  function IndexOf<T(==)>(s: seq<T>, x: T): (k: nat)
    requires x in s
    ensures k < |s| && s[k] == x
    ensures x !in s[..k]
  {
    if s[0] == x then 0
    else
      assert s == [s[0]] + s[1..];
      1 + IndexOf(s[1..], x)
  }

  /** `s` with its first element equal to `x` deleted; `s` itself when there is none. */
  function RemoveFirst<T(==)>(s: seq<T>, x: T): (r: seq<T>)
    ensures x !in s ==> r == s
    ensures x in s ==> |r| == |s| - 1
  {
    if s == [] then []
    else if s[0] == x then
      assert s == [s[0]] + s[1..];
      s[1..]
    else
      assert s == [s[0]] + s[1..];
      [s[0]] + RemoveFirst(s[1..], x)
  }

  /** Removal cuts exactly the first occurrence out and keeps everything else in order. */
  lemma {:induction false} RemoveFirstAt<T>(s: seq<T>, x: T)
    requires x in s
    ensures RemoveFirst(s, x) == s[..IndexOf(s, x)] + s[IndexOf(s, x) + 1..]
  {
    if s[0] == x {
      assert s[..0] == [];
    } else {
      var t := s[1..];
      assert x in t by { assert s == [s[0]] + t; }
      var k := IndexOf(t, x);
      RemoveFirstAt(t, x);
      assert IndexOf(s, x) == k + 1;
      PrependSplit(s, k);
    }
  }

  /** Splitting `s` around position `k + 1` is splitting its tail around `k`, with the head in front. */
  lemma PrependSplit<T>(s: seq<T>, k: nat)
    requires k + 1 < |s|
    ensures s[..k + 1] + s[k + 2..] == [s[0]] + (s[1..][..k] + s[1..][k + 1..])
  {
    assert s[..k + 1] == [s[0]] + s[1..][..k];
    assert s[k + 2..] == s[1..][k + 1..];
  }

  /** Removal deletes exactly one copy of `x` when there is one and nothing else. */
  lemma {:induction false} RemoveFirstMultiset<T>(s: seq<T>, x: T)
    ensures multiset(RemoveFirst(s, x)) == multiset(s) - multiset{x}
  {
    if s != [] {
      assert s == [s[0]] + s[1..];
      if s[0] != x {
        RemoveFirstMultiset(s[1..], x);
      }
    }
  }

  /** Removal keeps the relative order: the result is `s` with one position skipped. */
  lemma {:induction false} RemoveFirstKeepsOrder<T>(s: seq<T>, x: T, i: nat)
    requires x in s && i < |s| - 1
    ensures RemoveFirst(s, x)[i] == if i < IndexOf(s, x) then s[i] else s[i + 1]
  {
    RemoveFirstAt(s, x);
  }

  /** Removal of an element that was appended to a list not holding it restores the list. */
  lemma {:induction false} RemoveFirstAfterAppend<T>(s: seq<T>, x: T)
    requires x !in s
    ensures RemoveFirst(s + [x], x) == s
  {
    if s != [] {
      assert (s + [x])[1..] == s[1..] + [x];
      assert x !in s[1..] by { assert s == [s[0]] + s[1..]; }
      RemoveFirstAfterAppend(s[1..], x);
      assert s == [s[0]] + s[1..];
    }
  }

  /** Removal from a list without duplicates removes every occurrence, so removing again changes nothing. */
  lemma {:induction false} RemoveFirstIdempotent<T>(s: seq<T>, x: T)
    requires NoDuplicates(s)
    ensures x !in RemoveFirst(s, x)
    ensures RemoveFirst(RemoveFirst(s, x), x) == RemoveFirst(s, x)
  {
    if x in s {
      OnceWithoutDuplicates(s, x);
      RemoveFirstMultiset(s, x);
      assert multiset(RemoveFirst(s, x))[x] == 0;
    }
  }

  /** An element of a list without duplicates occurs in it exactly once. */
  lemma {:induction false} OnceWithoutDuplicates<T>(s: seq<T>, x: T)
    requires NoDuplicates(s) && x in s
    ensures multiset(s)[x] == 1
  {
    var t := s[1..];
    assert s == [s[0]] + t;
    assert NoDuplicates(t) by {
      forall i, j | 0 <= i < j < |t| ensures t[i] != t[j] {
        assert t[i] == s[i + 1] && t[j] == s[j + 1];
      }
    }
    if s[0] == x {
      assert x !in t by {
        forall j | 0 <= j < |t| ensures t[j] != x {
          assert t[j] == s[j + 1];
        }
      }
    } else {
      OnceWithoutDuplicates(t, x);
    }
  }

  /** Appending an element not yet present keeps a list free of duplicates. */
  lemma AppendKeepsNoDuplicates<T>(s: seq<T>, x: T)
    requires NoDuplicates(s) && x !in s
    ensures NoDuplicates(s + [x])
  {
    forall i, j | 0 <= i < j < |s + [x]|
      ensures (s + [x])[i] != (s + [x])[j]
    {
      if j == |s| {
        assert s[i] in s;
      }
    }
  }

  /** Removal keeps a list free of duplicates. */
  lemma {:induction false} RemoveFirstKeepsNoDuplicates<T>(s: seq<T>, x: T)
    requires NoDuplicates(s)
    ensures NoDuplicates(RemoveFirst(s, x))
  {
    if x in s {
      var k := IndexOf(s, x);
      RemoveFirstAt(s, x);
      var r := RemoveFirst(s, x);
      forall i, j | 0 <= i < j < |r|
        ensures r[i] != r[j]
      {
        RemoveFirstKeepsOrder(s, x, i);
        RemoveFirstKeepsOrder(s, x, j);
      }
    }
  }
}
