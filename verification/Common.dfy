/** Small datatypes and sequence facts shared by every component. */
module Common {

  datatype Option<+T> = None | Some(value: T)

  /** How a call ends: it returns an integer, or an `ASSERT` fires (or memory outside an array is touched). */
  datatype Outcome = Code(code: int) | Abort

  const EIO: int := 5
  const ENOENT: int := 2
  const ENOMEM: int := 12
  const EBUSY: int := 16
  const EINVAL: int := 22

  /** The index list 0, 1, ..., n - 1. */
  function Iota(n: nat): (s: seq<int>)
    ensures |s| == n
    ensures forall i :: 0 <= i < n ==> s[i] == i
  {
    seq(n, i => i)
  }

  ghost predicate NoDuplicates(m: multiset<int>) {
    forall x :: m[x] <= 1
  }

  ghost predicate StrictlyIncreasing(s: seq<int>) {
    forall i, j :: 0 <= i < j < |s| ==> s[i] < s[j]
  }

  lemma NoDuplicatesPart(a: multiset<int>, b: multiset<int>)
    requires NoDuplicates(a + b)
    ensures NoDuplicates(a) && NoDuplicates(b)
    ensures forall x :: x in a ==> x !in b
  {
    forall x
      ensures a[x] <= 1 && b[x] <= 1 && (x in a ==> x !in b)
    {
      assert (a + b)[x] <= 1;
    }
  }

  lemma {:induction false} DistinctHasNoDuplicates(s: seq<int>)
    requires forall i, j :: 0 <= i < j < |s| ==> s[i] != s[j]
    ensures NoDuplicates(multiset(s))
  {
    if s != [] {
      var init, last := s[..|s| - 1], s[|s| - 1];
      DistinctHasNoDuplicates(init);
      assert s == init + [last];
      assert last !in init;
    }
  }

  /** The indices below n are pairwise different, and nothing else is among them. */
  lemma IotaMultiset(n: nat)
    ensures NoDuplicates(multiset(Iota(n)))
    ensures forall x :: x in multiset(Iota(n)) <==> 0 <= x < n
  {
    DistinctHasNoDuplicates(Iota(n));
    forall x | 0 <= x < n
      ensures x in multiset(Iota(n))
    {
      assert Iota(n)[x] == x;
    }
  }

  lemma HeadTail<T>(s: seq<T>)
    requires s != []
    ensures multiset(s) == multiset{s[0]} + multiset(s[1..])
  {
    assert s == [s[0]] + s[1..];
  }

  lemma IncreasingParts(s: seq<int>)
    requires StrictlyIncreasing(s) && s != []
    ensures StrictlyIncreasing(s[1..])
    ensures forall x :: x in s[1..] ==> s[0] < x
  {
    forall i, j | 0 <= i < j < |s| - 1
      ensures s[1..][i] < s[1..][j]
    {
      assert s[i + 1] < s[j + 1];
    }
  }

  lemma IncreasingSnoc(s: seq<int>, last: int)
    requires StrictlyIncreasing(s) && forall x :: x in s ==> x < last
    ensures StrictlyIncreasing(s + [last])
  {
    forall i, j | 0 <= i < j < |s| + 1
      ensures (s + [last])[i] < (s + [last])[j]
    {
      if j == |s| {
        assert s[i] in s;
      }
    }
  }
}
