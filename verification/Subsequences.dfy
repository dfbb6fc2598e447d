// Subsequences: what one sequence keeps of another, in order.

module Subsequences {

  // `at` says where in `whole` each element of `part` is found.
  predicate Embeds<T(==)>(part: seq<T>, whole: seq<T>, at: seq<nat>) {
    && |at| == |part|
    && (forall k | 0 <= k < |at| :: at[k] < |whole| && whole[at[k]] == part[k])
    && (forall k, m | 0 <= k < m < |at| :: at[k] < at[m])
  }

  ghost predicate IsSubsequence<T>(part: seq<T>, whole: seq<T>) {
    exists at :: Embeds(part, whole, at)
  }

  // The greedy reading: each element is taken at the first place it is found.
  predicate Within<T(==)>(part: seq<T>, whole: seq<T>) {
    part == [] ||
    (whole != [] && if part[0] == whole[0] then Within(part[1..], whole[1..]) else Within(part, whole[1..]))
  }

  function Shifted(at: seq<nat>): seq<nat> {
    seq(|at|, k requires 0 <= k < |at| => at[k] + 1)
  }

  // Being greedy misses nothing.
  lemma {:induction false} GreedyIsComplete<T>(part: seq<T>, whole: seq<T>, at: seq<nat>)
    requires Embeds(part, whole, at)
    ensures Within(part, whole)
  {
    if part != [] {
      assert at[0] < |whole|;
      if at[0] == 0 || part[0] == whole[0] {
        var rest := seq(|at| - 1, k requires 0 <= k < |at| - 1 => (at[k + 1] - 1) as nat);
        assert Embeds(part[1..], whole[1..], rest);
        GreedyIsComplete(part[1..], whole[1..], rest);
      } else {
        var rest := seq(|at|, k requires 0 <= k < |at| => (at[k] - 1) as nat);
        assert Embeds(part, whole[1..], rest);
        GreedyIsComplete(part, whole[1..], rest);
      }
    }
  }

  // And finds only what is there.
  lemma {:induction false} GreedyIsSound<T>(part: seq<T>, whole: seq<T>) returns (at: seq<nat>)
    requires Within(part, whole)
    ensures Embeds(part, whole, at)
  {
    if part == [] {
      at := [];
    } else if part[0] == whole[0] {
      var rest := GreedyIsSound(part[1..], whole[1..]);
      at := [0] + Shifted(rest);
    } else {
      var rest := GreedyIsSound(part, whole[1..]);
      at := Shifted(rest);
    }
  }

  lemma GreedyIsExact<T>(part: seq<T>, whole: seq<T>)
    ensures Within(part, whole) <==> IsSubsequence(part, whole)
  {
    if Within(part, whole) {
      var at := GreedyIsSound(part, whole);
    }
    if IsSubsequence(part, whole) {
      var at :| Embeds(part, whole, at);
      GreedyIsComplete(part, whole, at);
    }
  }

  // ----- Longest common subsequences -----

  function Larger(a: nat, b: nat): nat {
    if a >= b then a else b
  }

  // The recurrence a table is filled by, over what remains of each sequence.
  function Lcs<T(==)>(a: seq<T>, b: seq<T>): nat
    decreases |a| + |b|
  {
    if a == [] || b == [] then 0
    else if a[0] == b[0] then Lcs(a[1..], b[1..]) + 1
    else Larger(Lcs(a[1..], b), Lcs(a, b[1..]))
  }

  ghost predicate Common<T>(part: seq<T>, a: seq<T>, b: seq<T>) {
    IsSubsequence(part, a) && IsSubsequence(part, b)
  }

  lemma {:induction false} WithinBothIsBounded<T>(part: seq<T>, a: seq<T>, b: seq<T>)
    requires Within(part, a) && Within(part, b)
    ensures |part| <= Lcs(a, b)
    decreases |a| + |b|
  {
    if part != [] {
      if a[0] == b[0] {
        WithinBothIsBounded(if part[0] == a[0] then part[1..] else part, a[1..], b[1..]);
      } else if part[0] != a[0] {
        WithinBothIsBounded(part, a[1..], b);
      } else {
        WithinBothIsBounded(part, a, b[1..]);
      }
    }
  }

  lemma {:induction false} LongestWithinBoth<T>(a: seq<T>, b: seq<T>) returns (part: seq<T>)
    ensures Within(part, a) && Within(part, b) && |part| == Lcs(a, b)
    decreases |a| + |b|
  {
    if a == [] || b == [] {
      part := [];
    } else if a[0] == b[0] {
      var rest := LongestWithinBoth(a[1..], b[1..]);
      part := [a[0]] + rest;
    } else if Lcs(a[1..], b) >= Lcs(a, b[1..]) {
      part := LongestWithinBoth(a[1..], b);
      WithinGrows(part, a);
    } else {
      part := LongestWithinBoth(a, b[1..]);
      WithinGrows(part, b);
    }
  }

  lemma WithinGrows<T>(part: seq<T>, whole: seq<T>)
    requires whole != [] && Within(part, whole[1..])
    ensures Within(part, whole)
  {
    var at := GreedyIsSound(part, whole[1..]);
    assert Embeds(part, whole, Shifted(at));
    GreedyIsComplete(part, whole, Shifted(at));
  }

  // The recurrence computes the length of the longest sequence that is a
  // subsequence of both.
  lemma LcsIsLongest<T(!new)>(a: seq<T>, b: seq<T>)
    ensures forall part | Common(part, a, b) :: |part| <= Lcs(a, b)
    ensures exists part :: Common(part, a, b) && |part| == Lcs(a, b)
  {
    forall part | Common(part, a, b)
      ensures |part| <= Lcs(a, b)
    {
      GreedyIsExact(part, a);
      GreedyIsExact(part, b);
      WithinBothIsBounded(part, a, b);
    }
    var longest := LongestWithinBoth(a, b);
    GreedyIsExact(longest, a);
    GreedyIsExact(longest, b);
    assert Common(longest, a, b);
  }
}
