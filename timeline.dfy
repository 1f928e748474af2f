/**
 * Throughput samples and the sort GeneratorResults applies to them.
 * `Collections.sort` is a stable sort; with `compareTo` looking only at the
 * timestamp, stability means that samples with equal timestamps keep their
 * order.  The sort is stated as: sorted by time, and for every timestamp the
 * subsequence of samples with that timestamp is unchanged.
 */
module Timeline {

  /** One timeline sample (GeneratorResults.Throughput). */
  datatype Throughput = Throughput(timeInNanos: int, clientsCount: int)

  /** Throughput.compareTo: compares the timestamps only. */
  function CompareTo(a: Throughput, b: Throughput): (c: int)
    ensures c == -1 <==> a.timeInNanos < b.timeInNanos
    ensures c == 0 <==> a.timeInNanos == b.timeInNanos
    ensures c == 1 <==> a.timeInNanos > b.timeInNanos
  {
    if a.timeInNanos < b.timeInNanos then -1
    else if a.timeInNanos > b.timeInNanos then 1
    else 0
  }

  ghost predicate SortedByTime(s: seq<Throughput>)
  {
    forall i, j :: 0 <= i < j < |s| ==> s[i].timeInNanos <= s[j].timeInNanos
  }

  /** The samples of `s` stamped `t`, in their order in `s`. */
  function AtTime(s: seq<Throughput>, t: int): seq<Throughput>
  {
    if s == [] then []
    else (if s[0].timeInNanos == t then [s[0]] else []) + AtTime(s[1..], t)
  }

  /** `r` reorders `s` the way a stable sort by timestamp may: per timestamp, nothing moves. */
  ghost predicate SameAtEveryTime(r: seq<Throughput>, s: seq<Throughput>)
  {
    forall t :: AtTime(r, t) == AtTime(s, t)
  }

  lemma {:induction false} AtTimeAppend(a: seq<Throughput>, b: seq<Throughput>, t: int)
    ensures AtTime(a + b, t) == AtTime(a, t) + AtTime(b, t)
  {
    if a != [] {
      assert (a + b)[0] == a[0];
      assert (a + b)[1..] == a[1..] + b;
      AtTimeAppend(a[1..], b, t);
    } else {
      assert a + b == b;
    }
  }

  /** Only samples stamped `t` are kept; every one of them is. */
  lemma {:induction false} AtTimeMembers(s: seq<Throughput>, t: int)
    ensures forall x :: x in AtTime(s, t) ==> x.timeInNanos == t
    ensures forall k :: 0 <= k < |s| && s[k].timeInNanos == t ==> s[k] in AtTime(s, t)
  {
    if s != [] {
      AtTimeMembers(s[1..], t);
      forall k | 1 <= k < |s| && s[k].timeInNanos == t
        ensures s[k] in AtTime(s, t)
      {
        assert s[1..][k - 1] == s[k];
      }
    }
  }

  /** Swapping two neighbours with different timestamps changes no per-time subsequence. */
  lemma SwapNeighbours(s: seq<Throughput>, j: int)
    requires 0 < j < |s|
    requires s[j - 1].timeInNanos != s[j].timeInNanos
    ensures SameAtEveryTime(s[j - 1 := s[j]][j := s[j - 1]], s)
  {
    var r := s[j - 1 := s[j]][j := s[j - 1]];
    var p, q := s[..j - 1], s[j + 1..];
    assert s == p + [s[j - 1], s[j]] + q;
    assert r == p + [s[j], s[j - 1]] + q;
    forall t
      ensures AtTime(r, t) == AtTime(s, t)
    {
      AtTimeAppend(p + [s[j], s[j - 1]], q, t);
      AtTimeAppend(p, [s[j], s[j - 1]], t);
      AtTimeAppend(p + [s[j - 1], s[j]], q, t);
      AtTimeAppend(p, [s[j - 1], s[j]], t);
      AtTimeAppend([s[j]], [s[j - 1]], t);
      AtTimeAppend([s[j - 1]], [s[j]], t);
    }
  }

  /**
   * Collections.sort on the history list, as an in-place stable insertion
   * sort: afterwards the array is sorted by timestamp and holds, per
   * timestamp, the same samples in the same order.
   */
  method SortByTime(a: array<Throughput>)
    modifies a
    ensures SortedByTime(a[..])
    ensures SameAtEveryTime(a[..], old(a[..]))
  {
    var i := 0;
    while i < a.Length
      invariant 0 <= i <= a.Length
      invariant SortedByTime(a[..i])
      invariant SameAtEveryTime(a[..], old(a[..]))
    {
      InsertAt(a, i);
      i := i + 1;
    }
    assert a[..a.Length] == a[..];
  }

  /** One insertion step: moves `a[i]` left past the later-stamped samples before it. */
  method InsertAt(a: array<Throughput>, i: int)
    requires 0 <= i < a.Length
    requires SortedByTime(a[..i])
    modifies a
    ensures SortedByTime(a[..i + 1])
    ensures SameAtEveryTime(a[..], old(a[..]))
  {
    var j := i;
    while j > 0 && a[j - 1].timeInNanos > a[j].timeInNanos
      invariant 0 <= j <= i < a.Length
      invariant SortedAround(a[..], i, j)
      invariant SameAtEveryTime(a[..], old(a[..]))
    {
      SwapNeighbours(a[..], j);
      SwapKeepsSortedAround(a[..], i, j);
      a[j - 1], a[j] := a[j], a[j - 1];
      j := j - 1;
    }
    InsertionDone(a[..], i, j);
  }

  /**
   * While `s[j]` travels left: the first `i + 1` samples without `s[j]` are
   * sorted, and `s[j]` is stamped earlier than every sample it has passed.
   */
  ghost predicate SortedAround(s: seq<Throughput>, i: int, j: int)
    requires 0 <= j <= i < |s|
  {
    (forall k, l :: 0 <= k < l <= i && k != j && l != j ==> s[k].timeInNanos <= s[l].timeInNanos) &&
    (forall l :: j < l <= i ==> s[j].timeInNanos < s[l].timeInNanos)
  }

  lemma SwapKeepsSortedAround(s: seq<Throughput>, i: int, j: int)
    requires 0 < j <= i < |s|
    requires SortedAround(s, i, j)
    requires s[j - 1].timeInNanos > s[j].timeInNanos
    ensures SortedAround(s[j - 1 := s[j]][j := s[j - 1]], i, j - 1)
  {
  }

  lemma InsertionDone(s: seq<Throughput>, i: int, j: int)
    requires 0 <= j <= i < |s|
    requires SortedAround(s, i, j)
    requires j == 0 || s[j - 1].timeInNanos <= s[j].timeInNanos
    ensures SortedByTime(s[..i + 1])
  {
  }

  /** A stable reordering is in particular a permutation. */
  lemma {:induction false} SameAtEveryTimeIsPermutation(r: seq<Throughput>, s: seq<Throughput>)
    requires SameAtEveryTime(r, s)
    ensures multiset(r) == multiset(s)
  {
    forall x
      ensures multiset(r)[x] == multiset(s)[x]
    {
      CountAtTime(r, x);
      CountAtTime(s, x);
      assert AtTime(r, x.timeInNanos) == AtTime(s, x.timeInNanos);
    }
  }

  /** How often `x` occurs in `s` is read off the subsequence at its timestamp. */
  lemma {:induction false} CountAtTime(s: seq<Throughput>, x: Throughput)
    ensures multiset(s)[x] == multiset(AtTime(s, x.timeInNanos))[x]
  {
    if s != [] {
      CountAtTime(s[1..], x);
      assert s == [s[0]] + s[1..];
      assert multiset(s) == multiset([s[0]]) + multiset(s[1..]);
    }
  }

  /** Sorted sequences that are stable reorderings of each other are equal: the stable sort is unique. */
  lemma {:induction false} StableSortIsUnique(r: seq<Throughput>, s: seq<Throughput>)
    requires SortedByTime(r) && SortedByTime(s)
    requires SameAtEveryTime(r, s)
    ensures r == s
  {
    if r == [] || s == [] {
      if r != [] {
        AtTimeMembers(r, r[0].timeInNanos);
      } else if s != [] {
        AtTimeMembers(s, s[0].timeInNanos);
      }
    } else {
      var t := r[0].timeInNanos;
      var u := s[0].timeInNanos;
      // both heads carry the least timestamp, so they carry the same one
      AtTimeMembers(r, t);
      AtTimeMembers(s, t);
      AtTimeMembers(r, u);
      AtTimeMembers(s, u);
      assert r[0] in AtTime(s, t);
      assert s[0] in AtTime(r, u);
      FirstAtTimeIsFirst(s, t);
      FirstAtTimeIsFirst(r, u);
      assert t == u;
      assert AtTime(r, t)[0] == r[0] && AtTime(s, t)[0] == s[0];
      assert AtTime(r, t) == AtTime(s, t);
      assert r[0] == s[0];
      forall v
        ensures AtTime(r[1..], v) == AtTime(s[1..], v)
      {
        var head := if r[0].timeInNanos == v then [r[0]] else [];
        assert AtTime(r, v) == head + AtTime(r[1..], v);
        assert AtTime(s, v) == head + AtTime(s[1..], v);
        assert AtTime(r, v) == AtTime(s, v);
        assert AtTime(r[1..], v) == AtTime(r, v)[|head|..];
        assert AtTime(s[1..], v) == AtTime(s, v)[|head|..];
      }
      StableSortIsUnique(r[1..], s[1..]);
      assert r == [r[0]] + r[1..] && s == [s[0]] + s[1..];
    }
  }

  /** In a sorted sequence, a sample stamped `t` bounds the head's timestamp from above. */
  lemma FirstAtTimeIsFirst(s: seq<Throughput>, t: int)
    requires SortedByTime(s) && s != []
    requires AtTime(s, t) != []
    ensures s[0].timeInNanos <= t
  {
    AtTimeMembersInS(s, t);
  }

  lemma {:induction false} AtTimeMembersInS(s: seq<Throughput>, t: int)
    requires AtTime(s, t) != []
    ensures exists k :: 0 <= k < |s| && s[k].timeInNanos == t
  {
    if s[0].timeInNanos != t {
      AtTimeMembersInS(s[1..], t);
      var k :| 0 <= k < |s[1..]| && s[1..][k].timeInNanos == t;
      assert s[k + 1].timeInNanos == t;
    }
  }
}
