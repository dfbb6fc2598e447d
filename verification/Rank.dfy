// Ranking mention candidates: a fuzzy score, and the order it puts them in.
// Strings are read as code points, with their width in UTF-16 units where the
// score counts units.

module Rank {
  import opened Wrappers
  import opened Subsequences
  import opened StableSort

  // ===== The score =====

  const BOUNDARIES := "/\\-_. "

  function Units(c: char): nat {
    if c as int >= 0x10000 then 2 else 1
  }

  // How many units precede the i-th code point.
  function Offset(s: string, i: nat): nat
    requires i <= |s|
  {
    if i == 0 then 0 else Offset(s, i - 1) + Units(s[i - 1])
  }

  function Slashes(s: string): nat {
    if s == "" then 0 else Slashes(s[..|s| - 1]) + if s[|s| - 1] == '/' || s[|s| - 1] == '\\' then 1 else 0
  }

  // The first place at or after `from` where c stands.
  function IndexOf(s: string, c: char, from: nat): (i: Option<nat>)
    requires from <= |s|
    ensures i.Some? ==> from <= i.value < |s| && s[i.value] == c
    decreases |s| - from
  {
    if from == |s| then None else if s[from] == c then Some(from) else IndexOf(s, c, from + 1)
  }

  // Where the search finds each letter: after the one before, as soon as it can.
  function Spots(needle: string, haystack: string): (at: Option<seq<nat>>)
    ensures at.Some? ==> Inside(at.value, haystack)
  {
    if needle == "" then Some([])
    else
      match Spots(needle[..|needle| - 1], haystack)
      case None => None
      case Some(at) =>
        match IndexOf(haystack, needle[|needle| - 1], After(at))
        case None => None
        case Some(i) => Some(at + [i])
  }

  predicate Inside(at: seq<nat>, s: string) {
    forall m | 0 <= m < |at| :: at[m] < |s|
  }

  function After(at: seq<nat>): nat {
    if at == [] then 0 else at[|at| - 1] + 1
  }

  predicate AtBoundary(s: string, i: nat)
    requires i < |s|
  {
    i == 0 || s[i - 1] in BOUNDARIES
  }

  // What finding the k-th letter where it was found is worth.
  function Bonus(s: string, at: seq<nat>, k: nat): nat
    requires k < |at| && Inside(at, s)
  {
    (if k > 0 && Offset(s, at[k]) == Offset(s, at[k - 1]) + 1 then 8 else 0) + if AtBoundary(s, at[k]) then 4 else 0
  }

  function Bonuses(s: string, at: seq<nat>, n: nat): nat
    requires n <= |at| && Inside(at, s)
  {
    if n == 0 then 0 else Bonuses(s, at, n - 1) + Bonus(s, at, n - 1)
  }

  function Worth(s: string, at: seq<nat>): int
    requires Inside(at, s)
  {
    Bonuses(s, at, |at|) - 2 * Slashes(s) - Offset(s, |s|) / 16
  }

  function ScoreOf(candidate: string, query: string, lower: string -> string): Option<int> {
    if query == "" then Some(0)
    else
      match Spots(lower(query), lower(candidate))
      case None => None
      case Some(at) => Some(Worth(lower(candidate), at))
  }

  // The first k letters are found, at these spots, for this many points.
  predicate Underway(needle: string, haystack: string, k: nat, spots: seq<nat>, total: int) {
    k <= |needle| && Spots(needle[..k], haystack) == Some(spots) && total == Bonuses(haystack, spots, |spots|)
  }

  function Previous(haystack: string, spots: seq<nat>): int
    requires Inside(spots, haystack)
  {
    if spots == [] then -2 else Offset(haystack, spots[|spots| - 1])
  }

  method Score(candidate: string, query: string, lower: string -> string) returns (score: Option<int>)
    ensures score == ScoreOf(candidate, query, lower)
  {
    if |query| == 0 {
      return Some(0);
    }
    var haystack, needle := lower(candidate), lower(query);
    assert needle[..0] == "";
    var total, at, previous: int := 0, 0, -2;
    ghost var spots: seq<nat> := [];
    var k := 0;
    while k < |needle|
      invariant Underway(needle, haystack, k, spots, total)
      invariant at == After(spots) && previous == Previous(haystack, spots)
    {
      NextSpot(needle, haystack, k, spots, total);
      var found := IndexOf(haystack, needle[k], at);
      if found.None? {
        NoSpots(needle, haystack, k + 1);
        return None;
      }
      if Offset(haystack, found.value) == previous + 1 {
        total := total + 8;
      }
      if AtBoundary(haystack, found.value) {
        total := total + 4;
      }
      spots := spots + [found.value];
      previous := Offset(haystack, found.value);
      at := found.value + 1;
      k := k + 1;
    }
    AllFound(needle, haystack, spots, total);
    var slashes := CountSlashes(haystack);
    total := total - slashes * 2;
    total := total - Offset(haystack, |haystack|) / 16;
    return Some(total);
  }

  method CountSlashes(s: string) returns (n: nat)
    ensures n == Slashes(s)
  {
    n := 0;
    for i := 0 to |s|
      invariant n == Slashes(s[..i])
    {
      assert s[..i + 1][..i] == s[..i];
      if s[i] == '/' || s[i] == '\\' {
        n := n + 1;
      }
    }
    assert s[..|s|] == s;
  }

  lemma {:induction false} NoSpots(needle: string, haystack: string, k: nat)
    requires k <= |needle| && Spots(needle[..k], haystack).None?
    ensures Spots(needle, haystack).None?
    decreases |needle| - k
  {
    if k == |needle| {
      assert needle[..k] == needle;
    } else {
      assert needle[..k + 1][..k] == needle[..k];
      NoSpots(needle, haystack, k + 1);
    }
  }

  lemma AllFound(needle: string, haystack: string, spots: seq<nat>, total: int)
    requires Underway(needle, haystack, |needle|, spots, total)
    ensures Spots(needle, haystack) == Some(spots) && total == Bonuses(haystack, spots, |spots|)
  {
    assert needle[..|needle|] == needle;
  }

  lemma NextSpot(needle: string, haystack: string, k: nat, spots: seq<nat>, total: int)
    requires k < |needle| && Underway(needle, haystack, k, spots, total)
    ensures match IndexOf(haystack, needle[k], After(spots))
            case None => Spots(needle[..k + 1], haystack).None?
            case Some(i) =>
              Underway(needle, haystack, k + 1, spots + [i],
                       total + (if Offset(haystack, i) == Previous(haystack, spots) + 1 then 8 else 0)
                             + (if AtBoundary(haystack, i) then 4 else 0))
  {
    assert needle[..k + 1][..k] == needle[..k];
    if IndexOf(haystack, needle[k], After(spots)).Some? {
      BonusesGrow(haystack, spots, IndexOf(haystack, needle[k], After(spots)).value);
    }
  }

  lemma BonusesGrow(s: string, at: seq<nat>, i: nat)
    requires i < |s| && Inside(at, s)
    ensures Bonuses(s, at + [i], |at| + 1)
         == Bonuses(s, at, |at|)
            + (if Offset(s, i) == Previous(s, at) + 1 then 8 else 0)
            + (if AtBoundary(s, i) then 4 else 0)
  {
    BonusesKept(s, at, i, |at|);
  }

  lemma {:induction false} BonusesKept(s: string, at: seq<nat>, i: nat, n: nat)
    requires n <= |at| && i < |s| && Inside(at, s)
    ensures Bonuses(s, at + [i], n) == Bonuses(s, at, n)
  {
    if n > 0 {
      BonusesKept(s, at, i, n - 1);
    }
  }

  // ----- What the score means -----

  // The embedding every letter of which comes as early as in any other.
  ghost predicate Leftmost(needle: string, haystack: string, at: seq<nat>) {
    Embeds(needle, haystack, at) &&
    forall other | Embeds(needle, haystack, other) :: forall k | 0 <= k < |at| :: at[k] <= other[k]
  }

  lemma ShorterEmbeds(needle: string, haystack: string, at: seq<nat>)
    requires needle != "" && Embeds(needle, haystack, at)
    ensures Embeds(needle[..|needle| - 1], haystack, at[..|at| - 1])
  {
  }

  lemma {:induction false} IndexOfIsFirst(s: string, c: char, from: nat)
    requires from <= |s|
    ensures forall k | from <= k < (if IndexOf(s, c, from).Some? then IndexOf(s, c, from).value else |s|) :: s[k] != c
    decreases |s| - from
  {
    if from < |s| && s[from] != c {
      IndexOfIsFirst(s, c, from + 1);
    }
  }

  // Searching greedily finds the leftmost embedding, and fails only when there
  // is none at all.
  lemma {:induction false} SpotsAreLeftmost(needle: string, haystack: string)
    ensures Spots(needle, haystack).Some? ==> Leftmost(needle, haystack, Spots(needle, haystack).value)
    ensures Spots(needle, haystack).None? ==> !IsSubsequence(needle, haystack)
  {
    if needle == "" {
      assert Embeds(needle, haystack, []);
    } else {
      var front := needle[..|needle| - 1];
      SpotsAreLeftmost(front, haystack);
      if Spots(front, haystack).Some? {
        var at := Spots(front, haystack).value;
        IndexOfIsFirst(haystack, needle[|front|], After(at));
        if Spots(needle, haystack).Some? {
          LastSpotEmbeds(needle, haystack, at, IndexOf(haystack, needle[|front|], After(at)).value);
        }
      }
      forall other | Embeds(needle, haystack, other)
        ensures Spots(needle, haystack).Some?
        ensures forall k | 0 <= k < |needle| :: Spots(needle, haystack).value[k] <= other[k]
      {
        ShorterEmbeds(needle, haystack, other);
        LaterThanAll(needle, haystack, Spots(front, haystack).value, other);
      }
    }
  }

  lemma LastSpotEmbeds(needle: string, haystack: string, at: seq<nat>, i: nat)
    requires needle != "" && Embeds(needle[..|needle| - 1], haystack, at)
    requires After(at) <= i < |haystack| && haystack[i] == needle[|needle| - 1]
    ensures Embeds(needle, haystack, at + [i])
  {
  }

  lemma LaterThanAll(needle: string, haystack: string, at: seq<nat>, other: seq<nat>)
    requires needle != "" && Leftmost(needle[..|needle| - 1], haystack, at) && Embeds(needle, haystack, other)
    ensures After(at) <= other[|other| - 1]
    ensures forall k | 0 <= k < |at| :: at[k] <= other[k]
  {
    ShorterEmbeds(needle, haystack, other);
    var front := other[..|other| - 1];
    assert forall k | 0 <= k < |at| :: at[k] <= front[k] == other[k];
  }

  // There is a score exactly when the lower-cased query is a subsequence of the
  // lower-cased candidate, and it is the worth of its leftmost occurrence.
  lemma ScoredIfSubsequence(candidate: string, query: string, lower: string -> string)
    ensures ScoreOf(candidate, query, lower).Some? <==> query == "" || IsSubsequence(lower(query), lower(candidate))
    ensures query != "" && ScoreOf(candidate, query, lower).Some? ==>
              exists at :: Leftmost(lower(query), lower(candidate), at) &&
                           ScoreOf(candidate, query, lower) == Some(Worth(lower(candidate), at))
  {
    SpotsAreLeftmost(lower(query), lower(candidate));
  }

  // ===== The ranking =====

  datatype Scored<T> = Scored(item: T, index: nat, score: int)

  // The items that have a score, with it and with where they stood.
  function ScoredOnes<T>(items: seq<T>, query: string, key: T -> string, lower: string -> string): seq<Scored<T>> {
    if items == [] then []
    else
      var last := |items| - 1;
      var score := ScoreOf(key(items[last]), query, lower);
      ScoredOnes(items[..last], query, key, lower) +
      if score.Some? then [Scored(items[last], last, score.value)] else []
  }

  predicate Better<T>(a: Scored<T>, b: Scored<T>) {
    a.score > b.score || (a.score == b.score && a.index < b.index)
  }

  function ItemsOf<T>(scored: seq<Scored<T>>): seq<T> {
    if scored == [] then [] else ItemsOf(scored[..|scored| - 1]) + [scored[|scored| - 1].item]
  }

  function Ranked<T>(items: seq<T>, query: string, key: T -> string, lower: string -> string): seq<T> {
    ItemsOf(Sorted(ScoredOnes(items, query, key, lower), Better))
  }

  // ----- What the ranking means -----

  function Matching<T>(items: seq<T>, query: string, key: T -> string, lower: string -> string): seq<T> {
    if items == [] then []
    else
      Matching(items[..|items| - 1], query, key, lower) +
      if ScoreOf(key(items[|items| - 1]), query, lower).Some? then [items[|items| - 1]] else []
  }

  // Items without a score are never compared; any value does for them.
  function Value<T>(item: T, query: string, key: T -> string, lower: string -> string): int {
    match ScoreOf(key(item), query, lower)
    case None => 0
    case Some(v) => v
  }

  function Higher<T>(query: string, key: T -> string, lower: string -> string): (T, T) -> bool {
    (a, b) => Value(a, query, key, lower) > Value(b, query, key, lower)
  }

  // The records the sort is given say what is so of their items.
  ghost predicate Faithful<T>(scored: seq<Scored<T>>, n: nat, query: string, key: T -> string,
                              lower: string -> string) {
    forall r | r in scored :: r.index < n && r.score == Value(r.item, query, key, lower)
  }

  // Breaking ties by position is what a stable sort does anyway.
  lemma {:induction false} InsertedAlike<T>(scored: seq<Scored<T>>, r: Scored<T>, query: string, key: T -> string,
                                            lower: string -> string)
    requires Faithful(scored, r.index, query, key, lower) && r.score == Value(r.item, query, key, lower)
    ensures ItemsOf(Inserted(scored, r, Better)) == Inserted(ItemsOf(scored), r.item, Higher(query, key, lower))
  {
    if scored != [] {
      var front, last := scored[..|scored| - 1], scored[|scored| - 1];
      var items := ItemsOf(scored);
      assert last in scored && items[..|items| - 1] == ItemsOf(front) && items[|items| - 1] == last.item;
      assert Better(r, last) <==> Higher(query, key, lower)(r.item, last.item);
      if Better(r, last) {
        InsertedAlike(front, r, query, key, lower);
        var longer := Inserted(front, r, Better) + [last];
        assert longer[..|longer| - 1] == Inserted(front, r, Better);
      } else {
        assert (scored + [r])[..|scored|] == scored;
      }
    } else {
      assert ItemsOf([r]) == [r.item];
    }
  }

  lemma FaithfulGrows<T>(scored: seq<Scored<T>>, r: Scored<T>, query: string, key: T -> string, lower: string -> string)
    requires Faithful(scored, r.index, query, key, lower) && r.score == Value(r.item, query, key, lower)
    ensures Faithful(Inserted(scored, r, Better), r.index + 1, query, key, lower)
  {
    InsertedIsPermutation(scored, r, Better);
    forall x | x in Inserted(scored, r, Better)
      ensures x.index < r.index + 1 && x.score == Value(x.item, query, key, lower)
    {
      assert x in multiset(Inserted(scored, r, Better));
      assert x == r || x in scored;
    }
  }

  lemma SortedLonger<T>(items: seq<T>, x: T, less: (T, T) -> bool)
    ensures Sorted(items + [x], less) == Inserted(Sorted(items, less), x, less)
  {
    assert (items + [x])[..|items|] == items;
  }

  lemma ScoredLonger<T>(front: seq<T>, last: T, query: string, key: T -> string, lower: string -> string)
    ensures ScoredOnes(front + [last], query, key, lower) == ScoredOnes(front, query, key, lower)
            + match ScoreOf(key(last), query, lower)
              case None => []
              case Some(v) => [Scored(last, |front|, v)]
    ensures Matching(front + [last], query, key, lower) == Matching(front, query, key, lower)
            + match ScoreOf(key(last), query, lower)
              case None => []
              case Some(_) => [last]
  {
    assert (front + [last])[..|front|] == front;
  }

  ghost predicate Alike<T>(scored: seq<Scored<T>>, matching: seq<T>, n: nat, query: string, key: T -> string,
                           lower: string -> string) {
    && ItemsOf(Sorted(scored, Better)) == Sorted(matching, Higher(query, key, lower))
    && Faithful(Sorted(scored, Better), n, query, key, lower)
  }

  lemma OneMoreAlike<T>(scored: seq<Scored<T>>, matching: seq<T>, r: Scored<T>, query: string, key: T -> string,
                        lower: string -> string)
    requires Alike(scored, matching, r.index, query, key, lower) && r.score == Value(r.item, query, key, lower)
    ensures Alike(scored + [r], matching + [r.item], r.index + 1, query, key, lower)
  {
    SortedLonger(scored, r, Better);
    SortedLonger(matching, r.item, Higher(query, key, lower));
    InsertedAlike(Sorted(scored, Better), r, query, key, lower);
    FaithfulGrows(Sorted(scored, Better), r, query, key, lower);
  }

  ghost predicate RankedAlike<T>(items: seq<T>, query: string, key: T -> string, lower: string -> string) {
    Alike(ScoredOnes(items, query, key, lower), Matching(items, query, key, lower), |items|, query, key, lower)
  }

  lemma OneMoreItem<T>(front: seq<T>, last: T, query: string, key: T -> string, lower: string -> string)
    requires RankedAlike(front, query, key, lower)
    ensures RankedAlike(front + [last], query, key, lower)
  {
    ScoredLonger(front, last, query, key, lower);
    var scored, matching := ScoredOnes(front, query, key, lower), Matching(front, query, key, lower);
    match ScoreOf(key(last), query, lower)
    case None => assert scored + [] == scored && matching + [] == matching;
    case Some(v) => OneMoreAlike(scored, matching, Scored(last, |front|, v), query, key, lower);
  }

  lemma {:induction false} SortedAlike<T>(items: seq<T>, query: string, key: T -> string, lower: string -> string)
    ensures RankedAlike(items, query, key, lower)
  {
    if items != [] {
      var front, last := items[..|items| - 1], items[|items| - 1];
      SortedAlike(front, query, key, lower);
      OneMoreItem(front, last, query, key, lower);
      assert items == front + [last];
    }
  }

  // The items of one score, as they stand.
  function WithValue<T>(items: seq<T>, value: int, query: string, key: T -> string, lower: string -> string): seq<T> {
    if items == [] then []
    else
      WithValue(items[..|items| - 1], value, query, key, lower) +
      if Value(items[|items| - 1], query, key, lower) == value then [items[|items| - 1]] else []
  }

  lemma {:induction false} TiesAreValues<T>(items: seq<T>, x: T, query: string, key: T -> string,
                                            lower: string -> string)
    ensures TiesOf(items, x, Higher(query, key, lower))
            == WithValue(items, Value(x, query, key, lower), query, key, lower)
  {
    if items != [] {
      TiesAreValues(items[..|items| - 1], x, query, key, lower);
    }
  }

  lemma {:induction false} NoneWithValue<T>(items: seq<T>, value: int, query: string, key: T -> string,
                                            lower: string -> string)
    requires forall x | x in items :: Value(x, query, key, lower) != value
    ensures WithValue(items, value, query, key, lower) == []
  {
    if items != [] {
      NoneWithValue(items[..|items| - 1], value, query, key, lower);
      assert items[|items| - 1] in items;
    }
  }

  // The ranking is the matching items, best score first, each score's items in
  // the order they came; and no other list is all of that.
  lemma RankedIs<T(!new)>(items: seq<T>, query: string, key: T -> string, lower: string -> string)
    ensures var r, m := Ranked(items, query, key, lower), Matching(items, query, key, lower);
            && multiset(r) == multiset(m)
            && (forall i, j | 0 <= i < j < |r| :: Value(r[i], query, key, lower) >= Value(r[j], query, key, lower))
            && forall v: int :: WithValue(r, v, query, key, lower) == WithValue(m, v, query, key, lower)
  {
    var less := Higher(query, key, lower);
    var r, m := Ranked(items, query, key, lower), Matching(items, query, key, lower);
    SortedAlike(items, query, key, lower);
    assert IsOrder(less);
    SortedIsStable(m, less);
    forall v: int
      ensures WithValue(r, v, query, key, lower) == WithValue(m, v, query, key, lower)
    {
      if x :| x in m && Value(x, query, key, lower) == v {
        TiesAreValues(r, x, query, key, lower);
        TiesAreValues(m, x, query, key, lower);
        assert TiesOf(r, x, less) == TiesOf(m, x, less);
      } else {
        forall x | x in r
          ensures x in m
        {
          assert x in multiset(r);
        }
        NoneWithValue(r, v, query, key, lower);
        NoneWithValue(m, v, query, key, lower);
      }
    }
  }

  lemma RankedIsForced<T(!new)>(items: seq<T>, other: seq<T>, query: string, key: T -> string, lower: string -> string)
    requires multiset(other) == multiset(Matching(items, query, key, lower))
    requires forall i, j | 0 <= i < j < |other| ::
               Value(other[i], query, key, lower) >= Value(other[j], query, key, lower)
    requires forall v: int ::
               WithValue(other, v, query, key, lower)
               == WithValue(Matching(items, query, key, lower), v, query, key, lower)
    ensures other == Ranked(items, query, key, lower)
  {
    var less, m := Higher(query, key, lower), Matching(items, query, key, lower);
    SortedAlike(items, query, key, lower);
    assert IsOrder(less);
    forall x
      ensures TiesOf(other, x, less) == TiesOf(m, x, less)
    {
      TiesAreValues(other, x, query, key, lower);
      TiesAreValues(m, x, query, key, lower);
    }
    StableSortIsUnique(m, other, less);
  }

  lemma {:induction false} MatchingIs<T>(items: seq<T>, query: string, key: T -> string, lower: string -> string, x: T)
    ensures x in Matching(items, query, key, lower) <==> x in items && ScoreOf(key(x), query, lower).Some?
  {
    if items != [] {
      MatchingIs(items[..|items| - 1], query, key, lower, x);
      assert items == items[..|items| - 1] + [items[|items| - 1]];
    }
  }
}
