// What a score counts.

module RankLaws {
  import opened Wrappers
  import opened Rank

  // Found right after the letter before, which is one unit wide.
  predicate Adjoins(s: string, at: seq<nat>, k: nat)
    requires k < |at| && Inside(at, s)
  {
    k > 0 && at[k] == at[k - 1] + 1 && (s[at[k - 1]] as int) < 65536
  }

  // Found where a word may begin.
  predicate Begins(s: string, at: seq<nat>, k: nat)
    requires k < |at| && Inside(at, s)
  {
    at[k] == 0 || s[at[k] - 1] in {'/', '\\', '-', '_', '.', ' '}
  }

  function Adjoining(s: string, at: seq<nat>, n: nat): set<nat>
    requires n <= |at| && Inside(at, s)
  {
    set k: nat | k < n && Adjoins(s, at, k)
  }

  function Beginning(s: string, at: seq<nat>, n: nat): set<nat>
    requires n <= |at| && Inside(at, s)
  {
    set k: nat | k < n && Begins(s, at, k)
  }

  predicate Ascending(at: seq<nat>) {
    forall i, j | 0 <= i < j < |at| :: at[i] < at[j]
  }

  function Dividers(s: string): set<nat> {
    set i: nat | i < |s| && (s[i] == '/' || s[i] == '\\')
  }

  function Wide(s: string, n: nat): set<nat>
    requires n <= |s|
  {
    set i: nat | i < n && s[i] as int >= 65536
  }

  lemma {:induction false} OffsetIs(s: string, i: nat)
    requires i <= |s|
    ensures Offset(s, i) == i + |Wide(s, i)|
  {
    if i == 0 {
      assert Wide(s, 0) == {};
    } else {
      OffsetIs(s, i - 1);
      assert Wide(s, i) == Wide(s, i - 1) + if s[i - 1] as int >= 65536 then {i - 1} else {};
    }
  }

  lemma {:induction false} OffsetGrows(s: string, i: nat, j: nat)
    requires i < j <= |s|
    ensures Offset(s, j) == Offset(s, i) + 1 <==> j == i + 1 && (s[i] as int) < 65536
    ensures Offset(s, j) > Offset(s, i)
  {
    if j > i + 1 {
      OffsetGrows(s, i, j - 1);
    }
  }

  lemma {:induction false} SlashesAre(s: string)
    ensures Slashes(s) == |Dividers(s)|
  {
    if s == "" {
      assert Dividers(s) == {};
    } else {
      var n := |s| - 1;
      SlashesAre(s[..n]);
      assert Dividers(s) == Dividers(s[..n]) + if s[n] == '/' || s[n] == '\\' then {n} else {};
    }
  }

  lemma BoundariesAre(c: char)
    ensures c in BOUNDARIES <==> c in {'/', '\\', '-', '_', '.', ' '}
  {
    assert BOUNDARIES == ['/', '\\', '-', '_', '.', ' '];
  }

  lemma BonusIs(s: string, at: seq<nat>, k: nat)
    requires k < |at| && Inside(at, s) && Ascending(at)
    ensures Bonus(s, at, k) == (if Adjoins(s, at, k) then 8 else 0) + if Begins(s, at, k) then 4 else 0
  {
    if k > 0 {
      OffsetGrows(s, at[k - 1], at[k]);
    }
    if at[k] > 0 {
      BoundariesAre(s[at[k] - 1]);
    }
  }

  lemma AdjoiningGrows(s: string, at: seq<nat>, n: nat)
    requires n < |at| && Inside(at, s)
    ensures |Adjoining(s, at, n + 1)| == |Adjoining(s, at, n)| + if Adjoins(s, at, n) then 1 else 0
  {
    assert Adjoining(s, at, n + 1) == Adjoining(s, at, n) + if Adjoins(s, at, n) then {n} else {};
  }

  lemma BeginningGrows(s: string, at: seq<nat>, n: nat)
    requires n < |at| && Inside(at, s)
    ensures |Beginning(s, at, n + 1)| == |Beginning(s, at, n)| + if Begins(s, at, n) then 1 else 0
  {
    assert Beginning(s, at, n + 1) == Beginning(s, at, n) + if Begins(s, at, n) then {n} else {};
  }

  lemma {:induction false} BonusesAre(s: string, at: seq<nat>, n: nat)
    requires n <= |at| && Inside(at, s) && Ascending(at)
    ensures Bonuses(s, at, n) == 8 * |Adjoining(s, at, n)| + 4 * |Beginning(s, at, n)|
  {
    if n == 0 {
      assert Adjoining(s, at, 0) == {} && Beginning(s, at, 0) == {};
    } else {
      BonusesAre(s, at, n - 1);
      BonusIs(s, at, n - 1);
      AdjoiningGrows(s, at, n - 1);
      BeginningGrows(s, at, n - 1);
    }
  }

  // A match earns eight for each letter next to the one before and four for each
  // at the start of a word, and loses two for each divider of the path and one for
  // every sixteen units of its length.
  lemma WorthIs(s: string, at: seq<nat>)
    requires Inside(at, s) && Ascending(at)
    ensures Worth(s, at) == 8 * |Adjoining(s, at, |at|)| + 4 * |Beginning(s, at, |at|)|
                            - 2 * |Dividers(s)| - (|s| + |Wide(s, |s|)|) / 16
  {
    BonusesAre(s, at, |at|);
    SlashesAre(s);
    OffsetIs(s, |s|);
  }

  // With nothing typed everything matches for no points, and stays as it stood.
  lemma {:induction false} AllMatchNothing<T>(items: seq<T>, key: T -> string, lower: string -> string)
    ensures Matching(items, "", key, lower) == items
    ensures forall x | x in items :: ScoreOf(key(x), "", lower) == Some(0)
  {
    if items != [] {
      AllMatchNothing(items[..|items| - 1], key, lower);
    }
  }

  lemma NothingTyped<T(!new)>(items: seq<T>, key: T -> string, lower: string -> string)
    ensures Ranked(items, "", key, lower) == items
  {
    AllMatchNothing(items, key, lower);
    RankedIsForced(items, items, "", key, lower);
  }
}
