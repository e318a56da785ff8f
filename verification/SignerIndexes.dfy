/** The duplicate test of `verify_signature`: sort, dedup, compare lengths. */
module SignerIndexes {
  import opened Types

  predicate Sorted(s: seq<int>) {
    forall i, j :: 0 <= i < j < |s| ==> s[i] <= s[j]
  }

  function Insert(x: byte, s: seq<byte>): (r: seq<byte>)
    ensures multiset(r) == multiset(s) + multiset{x}
  {
    if s == [] || x <= s[0] then [x] + s
    else
      assert s == [s[0]] + s[1..];
      [s[0]] + Insert(x, s[1..])
  }

  function Sort(s: seq<byte>): (r: seq<byte>)
    ensures multiset(r) == multiset(s)
  {
    if s == [] then []
    else
      assert s == s[..|s| - 1] + [s[|s| - 1]];
      Insert(s[|s| - 1], Sort(s[..|s| - 1]))
  }

  lemma InsertMembers(x: byte, s: seq<byte>, y: int)
    requires y in Insert(x, s)
    ensures y == x || y in s
  {
    assert y in multiset(Insert(x, s));
  }

  lemma {:induction false} InsertSorts(x: byte, s: seq<byte>)
    requires Sorted(s)
    ensures Sorted(Insert(x, s))
  {
    if s != [] && s[0] < x {
      var rest := Insert(x, s[1..]);
      InsertSorts(x, s[1..]);
      forall i | 0 <= i < |rest|
        ensures s[0] <= rest[i]
      {
        InsertMembers(x, s[1..], rest[i]);
      }
      PrependSorted(s[0], rest);
    }
  }

  lemma PrependSorted(x: byte, s: seq<byte>)
    requires Sorted(s) && forall i :: 0 <= i < |s| ==> x <= s[i]
    ensures Sorted([x] + s)
  {
  }

  lemma {:induction false} SortSorts(s: seq<byte>)
    ensures Sorted(Sort(s))
  {
    if s != [] {
      SortSorts(s[..|s| - 1]);
      InsertSorts(s[|s| - 1], Sort(s[..|s| - 1]));
    }
  }

  /** Keeps the first of every run of equal neighbours. */
  function Dedup(s: seq<byte>): (r: seq<byte>)
    ensures |r| <= |s|
  {
    if |s| < 2 then s
    else if s[|s| - 2] == s[|s| - 1] then Dedup(s[..|s| - 1])
    else Dedup(s[..|s| - 1]) + [s[|s| - 1]]
  }

  method DedupInPlace(s: seq<byte>) returns (r: seq<byte>)
    ensures r == Dedup(s)
  {
    r := [];
    for i := 0 to |s|
      invariant r == Dedup(s[..i])
    {
      assert s[..i + 1][..i] == s[..i];
      if i == 0 || s[i - 1] != s[i] {
        r := r + [s[i]];
      }
    }
    assert s[..|s|] == s;
  }

  lemma {:induction false} DedupKeepsStrictlyIncreasing(s: seq<byte>)
    requires Sorted(s)
    ensures |Dedup(s)| == |s| <==> NoDups(s)
  {
    if |s| >= 2 {
      var n := |s| - 1;
      DedupKeepsStrictlyIncreasing(s[..n]);
      if s[n - 1] == s[n] {
        assert !NoDups(s);
      } else {
        assert forall i :: 0 <= i < n ==> s[i] <= s[n - 1] < s[n];
        assert NoDups(s[..n]) ==> NoDups(s);
        assert NoDups(s) ==> NoDups(s[..n]);
      }
    }
  }

  lemma {:induction false} NoDupsByCount(s: seq<byte>)
    ensures NoDups(s) <==> forall x :: multiset(s)[x] <= 1
  {
    if s != [] {
      var n := |s| - 1;
      var front := s[..n];
      NoDupsByCount(front);
      assert s == front + [s[n]];
      if NoDups(s) {
        assert NoDups(front);
        assert s[n] !in front;
      } else if NoDups(front) {
        assert s[n] in front;
        assert multiset(s)[s[n]] >= 2;
      } else {
        var x :| multiset(front)[x] > 1;
        assert multiset(s)[x] > 1;
      }
    }
  }

  /** The program's test is the intended one: it rejects exactly the lists with a repeated index. */
  lemma DuplicateTestExact(indexes: seq<byte>)
    ensures |Dedup(Sort(indexes))| == |indexes| <==> NoDups(indexes)
  {
    var sorted := Sort(indexes);
    SortSorts(indexes);
    assert |sorted| == |multiset(sorted)| == |indexes|;
    DedupKeepsStrictlyIncreasing(sorted);
    NoDupsByCount(sorted);
    NoDupsByCount(indexes);
  }
}
