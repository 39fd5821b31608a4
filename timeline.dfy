/** Ordering of a fetched conversation history: the array of messages is
    sorted in place, ascending by timestamp (a missing timestamp counts as
    0), by a stable sort, so messages with equal timestamps keep the order
    in which they were fetched. */
module Timeline {
  import opened Wrappers
  import opened Chat

  /** `m.timestamp || 0`. */
  function TimeKey(m: Message): int {
    if m.timestamp.Some? then m.timestamp.value else 0
  }

  predicate Sorted(s: seq<Message>) {
    forall i, j :: 0 <= i < j < |s| ==> TimeKey(s[i]) <= TimeKey(s[j])
  }

  /** `x` placed after every element whose key is not greater than its own,
      scanning from the back: one step of a stable insertion sort. */
  function InsertBack(s: seq<Message>, x: Message): (r: seq<Message>)
    ensures |r| == |s| + 1
  {
    if |s| == 0 || TimeKey(s[|s| - 1]) <= TimeKey(x) then s + [x]
    else InsertBack(s[..|s| - 1], x) + [s[|s| - 1]]
  }

  /** The history in the order the sort leaves it. */
  function SortByTime(s: seq<Message>): (r: seq<Message>)
    ensures |r| == |s|
  {
    if |s| == 0 then [] else InsertBack(SortByTime(s[..|s| - 1]), s[|s| - 1])
  }

  /** The messages of `s` whose key is `k`, in order. */
  function WithKey(s: seq<Message>, k: int): (r: seq<Message>)
    ensures |r| <= |s|
  {
    if |s| == 0 then []
    else WithKey(s[..|s| - 1], k) + (if TimeKey(s[|s| - 1]) == k then [s[|s| - 1]] else [])
  }

  lemma WithKeyAppend(s: seq<Message>, x: Message, k: int)
    ensures WithKey(s + [x], k) == WithKey(s, k) + (if TimeKey(x) == k then [x] else [])
  {
    assert (s + [x])[..|s|] == s;
  }

  // ---------------------------------------------------------------------
  // Properties of one insertion step

  lemma {:induction false} InsertBackPermutes(s: seq<Message>, x: Message)
    ensures multiset(InsertBack(s, x)) == multiset(s) + multiset{x}
  {
    if |s| > 0 && TimeKey(s[|s| - 1]) > TimeKey(x) {
      InsertBackPermutes(s[..|s| - 1], x);
      assert s == s[..|s| - 1] + [s[|s| - 1]];
    }
  }

  lemma {:induction false} InsertBackSorted(s: seq<Message>, x: Message)
    requires Sorted(s)
    ensures Sorted(InsertBack(s, x))
  {
    if |s| > 0 && TimeKey(s[|s| - 1]) > TimeKey(x) {
      var init := s[..|s| - 1];
      var last := s[|s| - 1];
      InsertBackSorted(init, x);
      InsertBackPermutes(init, x);
      var t := InsertBack(init, x);
      forall i | 0 <= i < |t| ensures TimeKey(t[i]) <= TimeKey(last) {
        assert t[i] in multiset(t);
        if t[i] != x {
          assert t[i] in multiset(init);
          var j :| 0 <= j < |init| && init[j] == t[i];
          assert s[j] == t[i];
        }
      }
    }
  }

  lemma {:induction false} InsertBackStable(s: seq<Message>, x: Message, k: int)
    ensures WithKey(InsertBack(s, x), k) == WithKey(s, k) + (if TimeKey(x) == k then [x] else [])
  {
    if |s| == 0 || TimeKey(s[|s| - 1]) <= TimeKey(x) {
      WithKeyAppend(s, x, k);
    } else {
      var init := s[..|s| - 1];
      var last := s[|s| - 1];
      InsertBackStable(init, x, k);
      WithKeyAppend(InsertBack(init, x), last, k);
      assert s == init + [last];
      WithKeyAppend(init, last, k);
    }
  }

  // ---------------------------------------------------------------------
  // Properties of the whole sort

  /** The sorted history is in ascending timestamp order. */
  lemma {:induction false} SortByTimeSorted(s: seq<Message>)
    ensures Sorted(SortByTime(s))
  {
    if |s| > 0 {
      SortByTimeSorted(s[..|s| - 1]);
      InsertBackSorted(SortByTime(s[..|s| - 1]), s[|s| - 1]);
    }
  }

  /** Inserting into a permutation of `s` gives a permutation of `s + [x]`. */
  lemma InsertKeepsPermutation(t: seq<Message>, s: seq<Message>, x: Message)
    requires multiset(t) == multiset(s)
    ensures multiset(InsertBack(t, x)) == multiset(s + [x])
  {
    InsertBackPermutes(t, x);
  }

  /** Sorting neither loses nor invents messages. */
  lemma {:induction false} SortByTimePermutes(s: seq<Message>)
    ensures multiset(SortByTime(s)) == multiset(s)
  {
    if |s| > 0 {
      var init, x := s[..|s| - 1], s[|s| - 1];
      SortByTimePermutes(init);
      InsertKeepsPermutation(SortByTime(init), init, x);
      assert init + [x] == s;
    }
  }

  /** Messages with equal timestamps keep their fetched order. */
  lemma {:induction false} SortByTimeStable(s: seq<Message>, k: int)
    ensures WithKey(SortByTime(s), k) == WithKey(s, k)
  {
    if |s| > 0 {
      SortByTimeStable(s[..|s| - 1], k);
      InsertBackStable(SortByTime(s[..|s| - 1]), s[|s| - 1], k);
    }
  }

  /** Where the inner loop of the array sort stops, the array holds
      `InsertBack(s, x)`. */
  lemma {:induction false} InsertBackAt(s: seq<Message>, x: Message, j: nat)
    requires j <= |s|
    requires j == 0 || TimeKey(s[j - 1]) <= TimeKey(x)
    requires forall k :: j <= k < |s| ==> TimeKey(s[k]) > TimeKey(x)
    ensures InsertBack(s, x) == s[..j] + [x] + s[j..]
  {
    if |s| > j {
      var init, last := s[..|s| - 1], s[|s| - 1];
      assert TimeKey(last) > TimeKey(x);
      assert InsertBack(s, x) == InsertBack(init, x) + [last];
      InsertBackAt(init, x, j);
      assert init[..j] == s[..j];
      assert init[j..] + [last] == s[j..];
    } else {
      assert s[..j] == s && s[j..] == [];
    }
  }

  /** One pass of the array sort: `a[i]` moves left past every greater
      key, leaving `a[..i + 1]` as `InsertBack(old(a[..i]), old(a[i]))`. */
  method InsertLast(a: array<Message>, i: nat)
    requires i < a.Length
    modifies a
    ensures a[..i + 1] == InsertBack(old(a[..i]), old(a[i]))
    ensures a[i + 1..] == old(a[i + 1..])
  {
    ghost var sorted := a[..i];
    ghost var rest := a[i + 1..];
    var x := a[i];
    var j := i;
    while j > 0 && TimeKey(a[j - 1]) > TimeKey(x)
      invariant 0 <= j <= i
      invariant forall k :: 0 <= k < j ==> a[k] == sorted[k]
      invariant a[j] == x
      invariant forall k :: j < k <= i ==> a[k] == sorted[k - 1]
      invariant a[i + 1..] == rest
      invariant forall k :: j <= k < i ==> TimeKey(sorted[k]) > TimeKey(x)
    {
      a[j - 1], a[j] := a[j], a[j - 1];
      j := j - 1;
    }
    InsertBackAt(sorted, x, j);
    assert a[..i + 1] == sorted[..j] + [x] + sorted[j..];
  }

  /** `messages.sort(...)` by timestamp, in place. */
  method SortByTimestamp(a: array<Message>)
    modifies a
    ensures a[..] == SortByTime(old(a[..]))
  {
    ghost var original := a[..];
    var i := 0;
    while i < a.Length
      invariant 0 <= i <= a.Length
      invariant a[..i] == SortByTime(original[..i])
      invariant a[i..] == original[i..]
    {
      InsertLast(a, i);
      assert original[..i + 1][..i] == original[..i];
      i := i + 1;
    }
    assert original[..a.Length] == original;
    assert a[..] == a[..a.Length];
  }

  /** A small history: out-of-order timestamps come back ascending, and a
      message without a timestamp goes first. */
  lemma SortExample(m1: Message, m2: Message, m3: Message)
    requires m1.timestamp == Some(50) && m2.timestamp == None && m3.timestamp == Some(30)
    ensures SortByTime([m1, m2, m3]) == [m2, m3, m1]
  {
    assert [m1, m2, m3][..2] == [m1, m2];
    assert [m1, m2][..1] == [m1];
    assert SortByTime([m1]) == [m1] by { assert [m1][..0] == []; }
    assert InsertBack([m1], m2) == InsertBack([], m2) + [m1] == [m2, m1];
    assert SortByTime([m1, m2]) == [m2, m1];
    assert InsertBack([m2], m3) == [m2, m3];
    assert [m2, m1][..1] == [m2];
    assert InsertBack([m2, m1], m3) == InsertBack([m2], m3) + [m1] == [m2, m3, m1];
  }
}
