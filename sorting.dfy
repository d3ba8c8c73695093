/** `Array.prototype.sort` with a comparator, as both handlers that sort use it: in place, by
    an order that is total and transitive. The model sorts by insertion with adjacent swaps,
    which is how a stable sort may be realised. */
module Sorting {
  /** The comparator says `x` may come before `y`. */
  ghost predicate TotalPreorder<T(!new)>(le: (T, T) -> bool) {
    && (forall x, y :: le(x, y) || le(y, x))
    && (forall x, y, z :: le(x, y) && le(y, z) ==> le(x, z))
  }

  /** Elements `lo` up to `hi` of `s` are in order. */
  ghost predicate SortedBetween<T>(s: seq<T>, lo: int, hi: int, le: (T, T) -> bool)
    requires 0 <= lo && hi <= |s|
  {
    forall k, m :: lo <= k < m < hi ==> le(s[k], s[m])
  }

  ghost predicate Sorted<T>(s: seq<T>, le: (T, T) -> bool) { SortedBetween(s, 0, |s|, le) }

  method Sort<T(!new)>(a: array<T>, le: (T, T) -> bool)
    requires TotalPreorder(le)
    modifies a
    ensures Sorted(a[..], le)
    ensures multiset(a[..]) == multiset(old(a[..]))
  {
    if a.Length == 0 { return; }
    var i := 1;
    while i < a.Length
      invariant 1 <= i <= a.Length
      invariant SortedBetween(a[..], 0, i, le)
      invariant multiset(a[..]) == multiset(old(a[..]))
    {
      InsertOne(a, i, le);
      i := i + 1;
    }
  }

  /** Moves `a[i]` left past every element that must follow it, so that `a[..i + 1]` is in
      order; an element is never moved past an equal one. */
  method InsertOne<T(!new)>(a: array<T>, i: nat, le: (T, T) -> bool)
    requires TotalPreorder(le)
    requires i < a.Length
    requires SortedBetween(a[..], 0, i, le)
    modifies a
    ensures SortedBetween(a[..], 0, i + 1, le)
    ensures multiset(a[..]) == multiset(old(a[..]))
  {
    var j := i;
    while j > 0 && !le(a[j - 1], a[j])
      invariant 0 <= j <= i
      invariant SortedBetween(a[..], 0, j, le)
      invariant SortedBetween(a[..], j, i + 1, le)
      invariant forall k, m :: 0 <= k < j < m <= i ==> le(a[k], a[m])
      invariant multiset(a[..]) == multiset(old(a[..]))
    {
      SwapStep(a[..], j, i, le);
      a[j - 1], a[j] := a[j], a[j - 1];
      j := j - 1;
    }
  }

  /** One swap keeps the inner loop's invariants, one index further left. */
  lemma SwapStep<T(!new)>(s: seq<T>, j: nat, i: nat, le: (T, T) -> bool)
    requires TotalPreorder(le)
    requires 0 < j <= i < |s|
    requires SortedBetween(s, 0, j, le)
    requires SortedBetween(s, j, i + 1, le)
    requires forall k, m :: 0 <= k < j < m <= i ==> le(s[k], s[m])
    requires !le(s[j - 1], s[j])
    ensures var t := s[j - 1 := s[j]][j := s[j - 1]];
      && SortedBetween(t, 0, j - 1, le)
      && SortedBetween(t, j - 1, i + 1, le)
      && (forall k, m :: 0 <= k < j - 1 < m <= i ==> le(t[k], t[m]))
  {
    var t := s[j - 1 := s[j]][j := s[j - 1]];
    forall k, m | j - 1 <= k < m <= i ensures le(t[k], t[m]) {
      if k == j - 1 && m > j {
        assert le(s[j], s[j - 1]) && le(s[j - 1], s[m]);
      }
    }
    forall k, m | 0 <= k < j - 1 < m <= i ensures le(t[k], t[m]) {
      if m == j {
        assert t[m] == s[j - 1];
      } else {
        assert t[m] == s[m];
      }
    }
  }
}
