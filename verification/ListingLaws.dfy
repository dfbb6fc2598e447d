// What a listing says about the tree, and what its budgets cost.

module ListingLaws {
  import opened Listing

  // ===== Budgets =====

  // The matching entries among the first n names, in the order of the walk.
  function MatchesIn(visits: seq<Visit>, n: nat, needle: string, lower: string -> string): seq<Entry>
    requires n <= |visits|
  {
    if n == 0 then []
    else
      MatchesIn(visits, n - 1, needle, lower) +
      if Matches(visits[n - 1], needle, lower) then [EntryOf(visits[n - 1])] else []
  }

  function AtMost(n: nat, bound: nat): nat {
    if n < bound then n else bound
  }

  predicate FoundDeep(visits: seq<Visit>, n: nat)
    requires n <= |visits|
  {
    exists k | 0 <= k < n :: TooDeep(visits[k])
  }

  lemma FoundDeepNext(visits: seq<Visit>, n: nat)
    requires 0 < n <= |visits|
    ensures FoundDeep(visits, n) <==> FoundDeep(visits, n - 1) || TooDeep(visits[n - 1])
  {
    if FoundDeep(visits, n) {
      var k :| 0 <= k < n && TooDeep(visits[k]);
      assert k == n - 1 || FoundDeep(visits, n - 1);
    }
  }

  lemma {:induction false} ScanWithin(visits: seq<Visit>, n: nat, needle: string, limit: nat, lower: string -> string)
    requires n <= |visits| && n <= MAX_VISITS
    ensures var p, m := Scan(visits, n, needle, limit, lower), MatchesIn(visits, n, needle, lower);
            && p.entries == m[..AtMost(|m|, limit)]
            && (p.stopped <==> |m| > limit)
            && (p.truncated <==> |m| > limit || FoundDeep(visits, n))
  {
    if n > 0 {
      ScanWithin(visits, n - 1, needle, limit, lower);
      FoundDeepNext(visits, n);
    }
  }

  // A listing is the first `limit` matches among the first names the budget
  // allows, and says it was cut short exactly when one of the three budgets,
  // matches, names or depth, ran out.
  lemma ListedIs(visits: seq<Visit>, needle: string, limit: nat, lower: string -> string)
    ensures var n := AtMost(|visits|, MAX_VISITS);
            var m, listing := MatchesIn(visits, n, needle, lower), Listed(visits, needle, limit, lower);
            && listing.entries == m[..AtMost(|m|, limit)]
            && (listing.truncated <==> |m| > limit || |visits| > MAX_VISITS || FoundDeep(visits, n))
  {
    var n := AtMost(|visits|, MAX_VISITS);
    ScanWithin(visits, n, needle, limit, lower);
    if |visits| > MAX_VISITS {
      var p := Scan(visits, n, needle, limit, lower);
      assert Scan(visits, n + 1, needle, limit, lower) == Progress(p.entries, true, true);
      StoppedStays(visits, n + 1, |visits|, needle, limit, lower);
    }
  }

  // A smaller limit shows the beginning of what a larger one shows, and a
  // listing cut short under the larger is cut short under the smaller.
  lemma SmallerLimitIsPrefix(visits: seq<Visit>, needle: string, small: nat, large: nat, lower: string -> string)
    requires small <= large
    ensures Listed(visits, needle, small, lower).entries <= Listed(visits, needle, large, lower).entries
    ensures Listed(visits, needle, large, lower).truncated ==> Listed(visits, needle, small, lower).truncated
  {
    ListedIs(visits, needle, small, lower);
    ListedIs(visits, needle, large, lower);
  }

  // ===== Breadth first =====

  // Every directory waiting is at the first one's depth or one below, in order.
  predicate Layered(queue: seq<Dir>) {
    && (forall i, j | 0 <= i < j < |queue| :: queue[i].depth <= queue[j].depth)
    && (forall i | 0 <= i < |queue| :: queue[i].depth <= queue[0].depth + 1)
  }

  predicate ByDepth(visits: seq<Visit>, least: nat) {
    && (forall i, j | 0 <= i < j < |visits| :: visits[i].depth <= visits[j].depth)
    && (forall i | 0 <= i < |visits| :: least <= visits[i].depth)
  }

  predicate AllAt(visits: seq<Visit>, depth: nat) {
    forall v | v in visits :: v.depth == depth
  }

  lemma {:induction false} VisitsAreAt(dir: Dir, n: nat)
    requires n <= |ChildrenOf(dir)|
    ensures AllAt(VisitsTo(dir, n), dir.depth)
    ensures forall d | d in SubdirsTo(dir, n) :: d.depth == dir.depth + 1
  {
    if n > 0 {
      VisitsAreAt(dir, n - 1);
    }
  }

  lemma StaysLayered(queue: seq<Dir>)
    requires queue != [] && Layered(queue)
    ensures Layered(queue[1..] + SubdirsOf(queue[0]))
    ensures forall d | d in queue[1..] + SubdirsOf(queue[0]) :: d.depth >= queue[0].depth
  {
    VisitsAreAt(queue[0], |ChildrenOf(queue[0])|);
    var next := queue[1..] + SubdirsOf(queue[0]);
    forall i | 0 <= i < |next|
      ensures queue[0].depth <= next[i].depth <= queue[0].depth + 1
      ensures i >= |queue| - 1 ==> next[i].depth == queue[0].depth + 1
    {
      if i < |queue| - 1 {
        assert next[i] == queue[i + 1];
      } else {
        assert next[i] in SubdirsOf(queue[0]);
      }
    }
  }

  lemma DepthsJoin(first: seq<Visit>, rest: seq<Visit>, depth: nat)
    requires AllAt(first, depth) && ByDepth(rest, depth)
    ensures ByDepth(first + rest, depth)
  {
    forall i | 0 <= i < |first|
      ensures first[i].depth == depth
    {
      assert first[i] in first;
    }
  }

  lemma LessDeep(visits: seq<Visit>, least: nat, less: nat)
    requires ByDepth(visits, least) && less <= least
    ensures ByDepth(visits, less)
  {
  }

  lemma {:induction false} WalkGoesDown(queue: seq<Dir>)
    requires queue != [] && Layered(queue)
    ensures ByDepth(Walk(queue), queue[0].depth)
    decreases QueueSize(queue)
  {
    var depth, next := queue[0].depth, queue[1..] + SubdirsOf(queue[0]);
    QueueShrinks(queue);
    WalkUnfolds(queue);
    StaysLayered(queue);
    VisitsAreAt(queue[0], |ChildrenOf(queue[0])|);
    if next != [] {
      WalkGoesDown(next);
      assert next[0] in next;
      LessDeep(Walk(next), next[0].depth, depth);
    }
    DepthsJoin(VisitsOf(queue[0]), Walk(next), depth);
  }

  predicate PathsAreDeep(visits: seq<Visit>) {
    forall v | v in visits :: |v.path| == v.depth + 1
  }

  lemma {:induction false} NamesAreDeep(dir: Dir, n: nat)
    requires n <= |ChildrenOf(dir)| && |dir.path| == dir.depth
    ensures PathsAreDeep(VisitsTo(dir, n))
    ensures forall d | d in SubdirsTo(dir, n) :: |d.path| == d.depth
  {
    if n > 0 {
      NamesAreDeep(dir, n - 1);
    }
  }

  lemma {:induction false} WalkIsDeep(queue: seq<Dir>)
    requires forall d | d in queue :: |d.path| == d.depth
    ensures PathsAreDeep(Walk(queue))
    decreases QueueSize(queue)
  {
    if queue != [] {
      QueueShrinks(queue);
      WalkUnfolds(queue);
      NamesAreDeep(queue[0], |ChildrenOf(queue[0])|);
      WalkIsDeep(queue[1..] + SubdirsOf(queue[0]));
    }
  }

  predicate AllUnder(visits: seq<Visit>, root: string) {
    forall v | v in visits :: v.root == root
  }

  lemma {:induction false} NamesAreUnder(dir: Dir, n: nat)
    requires n <= |ChildrenOf(dir)|
    ensures AllUnder(VisitsTo(dir, n), dir.root)
    ensures forall d | d in SubdirsTo(dir, n) :: d.root == dir.root
  {
    if n > 0 {
      NamesAreUnder(dir, n - 1);
    }
  }

  lemma {:induction false} WalkStaysUnder(queue: seq<Dir>, root: string)
    requires forall d | d in queue :: d.root == root
    ensures AllUnder(Walk(queue), root)
    decreases QueueSize(queue)
  {
    if queue != [] {
      QueueShrinks(queue);
      WalkUnfolds(queue);
      NamesAreUnder(queue[0], |ChildrenOf(queue[0])|);
      WalkStaysUnder(queue[1..] + SubdirsOf(queue[0]), root);
    }
  }

  // Two visits of one root, never the deeper first.
  predicate RootsDescend(visits: seq<Visit>) {
    forall i, j | 0 <= i < j < |visits| && visits[i].root == visits[j].root :: visits[i].depth <= visits[j].depth
  }

  predicate DistinctRoots(starts: seq<Start>) {
    forall i, j | 0 <= i < j < |starts| :: starts[i].root != starts[j].root
  }

  lemma RootsDescendApart(first: seq<Visit>, rest: seq<Visit>, root: string)
    requires AllUnder(first, root) && RootsDescend(first) && RootsDescend(rest)
    requires forall v | v in rest :: v.root != root
    ensures RootsDescend(first + rest)
  {
    var all := first + rest;
    assert forall i | 0 <= i < |first| :: all[i] == first[i] && first[i] in first;
    assert forall j | |first| <= j < |all| :: all[j] == rest[j - |first|] && rest[j - |first|] in rest;
  }

  lemma OneRootDescends(start: Start)
    ensures RootsDescend(Walk([RootDir(start)])) && AllUnder(Walk([RootDir(start)]), start.root)
    ensures PathsAreDeep(Walk([RootDir(start)]))
  {
    WalkGoesDown([RootDir(start)]);
    WalkStaysUnder([RootDir(start)], start.root);
    WalkIsDeep([RootDir(start)]);
  }

  lemma {:induction false} WalkAllDescends(starts: seq<Start>)
    requires DistinctRoots(starts)
    ensures RootsDescend(WalkAll(starts)) && PathsAreDeep(WalkAll(starts))
    ensures forall v | v in WalkAll(starts) :: exists i | 0 <= i < |starts| :: starts[i].root == v.root
  {
    if starts != [] {
      var first, rest := Walk([RootDir(starts[0])]), WalkAll(starts[1..]);
      OneRootDescends(starts[0]);
      WalkAllDescends(starts[1..]);
      forall v | v in rest
        ensures v.root != starts[0].root && exists i | 0 <= i < |starts| :: starts[i].root == v.root
      {
        var i :| 0 <= i < |starts[1..]| && starts[1..][i].root == v.root;
        assert starts[i + 1].root == v.root;
      }
      RootsDescendApart(first, rest, starts[0].root);
    }
  }

  // Two entries of one root, never the one further from it first.
  predicate Descending(entries: seq<Entry>) {
    forall i, j | 0 <= i < j < |entries| && entries[i].root == entries[j].root :: |entries[i].path| <= |entries[j].path|
  }

  lemma {:induction false} MatchesDescend(visits: seq<Visit>, n: nat, needle: string, lower: string -> string)
    requires n <= |visits| && PathsAreDeep(visits) && RootsDescend(visits)
    ensures Descending(MatchesIn(visits, n, needle, lower))
    ensures forall e | e in MatchesIn(visits, n, needle, lower) :: exists k | 0 <= k < n :: EntryOf(visits[k]) == e
  {
    if n > 0 {
      MatchesDescend(visits, n - 1, needle, lower);
      var earlier, last := MatchesIn(visits, n - 1, needle, lower), visits[n - 1];
      forall i | 0 <= i < |earlier| && earlier[i].root == last.root
        ensures |earlier[i].path| <= |last.path|
      {
        assert earlier[i] in earlier;
        var k :| 0 <= k < n - 1 && EntryOf(visits[k]) == earlier[i];
        assert visits[k] in visits && last in visits;
      }
    }
  }

  // Each root's entries come shallowest first, whichever budget ran out, so it
  // is the shallow ones that are left.
  lemma RootIsListedByDepth(starts: seq<Start>, needle: string, limit: nat, lower: string -> string)
    requires DistinctRoots(starts)
    ensures Descending(Listed(WalkAll(starts), needle, limit, lower).entries)
  {
    var visits := WalkAll(starts);
    WalkAllDescends(starts);
    ListedIs(visits, needle, limit, lower);
    MatchesDescend(visits, AtMost(|visits|, MAX_VISITS), needle, lower);
  }

  function EachRootsMatches(starts: seq<Start>, needle: string, lower: string -> string): seq<Entry> {
    if starts == [] then []
    else
      var first := Walk([RootDir(starts[0])]);
      MatchesIn(first, |first|, needle, lower) + EachRootsMatches(starts[1..], needle, lower)
  }

  lemma {:induction false} AllRootsMatches(starts: seq<Start>, needle: string, lower: string -> string)
    ensures MatchesIn(WalkAll(starts), |WalkAll(starts)|, needle, lower) == EachRootsMatches(starts, needle, lower)
  {
    if starts != [] {
      AllRootsMatches(starts[1..], needle, lower);
      MatchesAdd(Walk([RootDir(starts[0])]), WalkAll(starts[1..]), needle, lower);
    }
  }

  lemma {:induction false} EarlierMatches(visits: seq<Visit>, n: nat, m: nat, needle: string, lower: string -> string)
    requires n <= m <= |visits|
    ensures MatchesIn(visits, n, needle, lower) <= MatchesIn(visits, m, needle, lower)
  {
    if n < m {
      EarlierMatches(visits, n, m - 1, needle, lower);
    }
  }

  // The roots are taken in turn: whichever budget ran out, what is listed is the
  // beginning of the first one's matches, then the next one's, and so on.
  lemma RootsAreListedInTurn(starts: seq<Start>, needle: string, limit: nat, lower: string -> string)
    ensures Listed(WalkAll(starts), needle, limit, lower).entries <= EachRootsMatches(starts, needle, lower)
  {
    var visits := WalkAll(starts);
    ListedIs(visits, needle, limit, lower);
    EarlierMatches(visits, AtMost(|visits|, MAX_VISITS), |visits|, needle, lower);
    AllRootsMatches(starts, needle, lower);
  }

  // ===== Completeness =====

  // The recursive reading of a tree, with no budget of any kind: each name,
  // and under it everything it holds.
  function Everything(dir: Dir): seq<Visit>
    decreases SizeOfAll(ChildrenOf(dir)), |ChildrenOf(dir)| + 1
  {
    EverythingTo(dir, |ChildrenOf(dir)|)
  }

  function EverythingTo(dir: Dir, n: nat): seq<Visit>
    requires n <= |ChildrenOf(dir)|
    decreases SizeOfAll(ChildrenOf(dir)), n
  {
    if n == 0 then []
    else
      var v := VisitTo(dir, ChildrenOf(dir)[n - 1]);
      ChildIsSmaller(ChildrenOf(dir), n - 1);
      EverythingTo(dir, n - 1) + [v] + if IsOpen(v) then Everything(DirAt(v)) else []
  }

  lemma {:induction false} SizeOfPrefix(children: seq<Child>, n: nat)
    requires n <= |children|
    ensures SizeOfAll(children[..n]) <= SizeOfAll(children)
    decreases |children| - n
  {
    if n == |children| {
      assert children[..n] == children;
    } else {
      SizeOfPrefix(children, n + 1);
      SizeOfMore(children, n + 1);
    }
  }

  lemma ChildIsSmaller(children: seq<Child>, k: nat)
    requires k < |children|
    ensures children[k].node.Directory? ==>
              SizeOfAll(children[k].node.children) < SizeOfAll(children) && SizeOfAll([]) < SizeOfAll(children)
  {
    SizeOfMore(children, k + 1);
    SizeOfPrefix(children, k + 1);
  }

  function EverythingIn(queue: seq<Dir>): multiset<Visit> {
    if queue == [] then multiset{}
    else EverythingIn(queue[..|queue| - 1]) + multiset(Everything(queue[|queue| - 1]))
  }

  lemma {:induction false} EverythingInAdds(a: seq<Dir>, b: seq<Dir>)
    ensures EverythingIn(a + b) == EverythingIn(a) + EverythingIn(b)
  {
    if b == [] {
      assert a + b == a;
    } else {
      assert (a + b)[..|a + b| - 1] == a + b[..|b| - 1];
      EverythingInAdds(a, b[..|b| - 1]);
    }
  }

  lemma EverythingInOne(dir: Dir)
    ensures EverythingIn([dir]) == multiset(Everything(dir))
  {
    assert [dir][..0] == [];
  }

  predicate NoneDeep(visits: seq<Visit>) {
    forall v | v in visits :: !TooDeep(v)
  }

  lemma EverythingMore(dir: Dir, n: nat, v: Visit)
    requires 0 < n <= |ChildrenOf(dir)| && v == VisitTo(dir, ChildrenOf(dir)[n - 1])
    ensures multiset(EverythingTo(dir, n))
         == multiset(EverythingTo(dir, n - 1)) + multiset{v} + if IsOpen(v) then multiset(Everything(DirAt(v)))
             else multiset{}
  {
  }

  lemma SubdirsMore(dir: Dir, n: nat, v: Visit)
    requires 0 < n <= |ChildrenOf(dir)| && v == VisitTo(dir, ChildrenOf(dir)[n - 1]) && !TooDeep(v)
    ensures EverythingIn(SubdirsTo(dir, n))
         == EverythingIn(SubdirsTo(dir, n - 1)) + if IsOpen(v) then multiset(Everything(DirAt(v))) else multiset{}
  {
    if IsOpen(v) {
      EverythingInAdds(SubdirsTo(dir, n - 1), [DirAt(v)]);
      EverythingInOne(DirAt(v));
      assert SubdirsTo(dir, n) == SubdirsTo(dir, n - 1) + [DirAt(v)];
    } else {
      assert SubdirsTo(dir, n) == SubdirsTo(dir, n - 1);
    }
  }

  // One directory, taken apart: its own names, and what its subdirectories hold.
  lemma {:induction false} DirectoryApart(dir: Dir, n: nat)
    requires n <= |ChildrenOf(dir)| && NoneDeep(VisitsTo(dir, n))
    ensures multiset(EverythingTo(dir, n)) == multiset(VisitsTo(dir, n)) + EverythingIn(SubdirsTo(dir, n))
  {
    if n > 0 {
      var v := VisitTo(dir, ChildrenOf(dir)[n - 1]);
      assert VisitsTo(dir, n) == VisitsTo(dir, n - 1) + [v];
      assert NoneDeep(VisitsTo(dir, n - 1) + [v]) && v in VisitsTo(dir, n);
      DirectoryApart(dir, n - 1);
      EverythingMore(dir, n, v);
      SubdirsMore(dir, n, v);
    }
  }

  lemma FirstOfQueue(queue: seq<Dir>)
    requires queue != []
    ensures EverythingIn(queue) == multiset(Everything(queue[0])) + EverythingIn(queue[1..])
  {
    assert queue == [queue[0]] + queue[1..];
    EverythingInAdds([queue[0]], queue[1..]);
    EverythingInOne(queue[0]);
  }

  lemma QueueApart(queue: seq<Dir>)
    requires queue != [] && NoneDeep(VisitsOf(queue[0]))
    ensures EverythingIn(queue) == multiset(VisitsOf(queue[0])) + EverythingIn(queue[1..] + SubdirsOf(queue[0]))
  {
    FirstOfQueue(queue);
    DirectoryApart(queue[0], |ChildrenOf(queue[0])|);
    EverythingInAdds(queue[1..], SubdirsOf(queue[0]));
  }

  lemma NoneDeepParts(a: seq<Visit>, b: seq<Visit>)
    requires NoneDeep(a + b)
    ensures NoneDeep(a) && NoneDeep(b)
  {
    assert forall v | v in a || v in b :: v in a + b;
  }

  lemma {:induction false} WalkIsEverything(queue: seq<Dir>)
    requires NoneDeep(Walk(queue))
    ensures multiset(Walk(queue)) == EverythingIn(queue)
    decreases QueueSize(queue)
  {
    if queue != [] {
      var next := queue[1..] + SubdirsOf(queue[0]);
      QueueShrinks(queue);
      WalkUnfolds(queue);
      NoneDeepParts(VisitsOf(queue[0]), Walk(next));
      WalkIsEverything(next);
      QueueApart(queue);
    }
  }

  function EverythingUnder(starts: seq<Start>): seq<Visit> {
    if starts == [] then [] else Everything(RootDir(starts[0])) + EverythingUnder(starts[1..])
  }

  lemma {:induction false} WalkAllIsEverything(starts: seq<Start>)
    requires NoneDeep(WalkAll(starts))
    ensures multiset(WalkAll(starts)) == multiset(EverythingUnder(starts))
  {
    if starts != [] {
      var first := Walk([RootDir(starts[0])]);
      NoneDeepParts(first, WalkAll(starts[1..]));
      WalkIsEverything([RootDir(starts[0])]);
      EverythingInOne(RootDir(starts[0]));
      WalkAllIsEverything(starts[1..]);
    }
  }

  // ----- Matching takes no account of order -----

  lemma {:induction false} MatchesAdd(a: seq<Visit>, b: seq<Visit>, needle: string, lower: string -> string)
    ensures MatchesIn(a + b, |a + b|, needle, lower)
            == MatchesIn(a, |a|, needle, lower) + MatchesIn(b, |b|, needle, lower)
  {
    MatchesOfPrefix(a + b, a, |a|, needle, lower);
    if b == [] {
      assert a + b == a;
    } else {
      var front, last := b[..|b| - 1], b[|b| - 1];
      MatchesAdd(a, front, needle, lower);
      MatchesOfPrefix(a + b, a + front, |a + front|, needle, lower);
      MatchesOfPrefix(b, front, |front|, needle, lower);
      var e := if Matches(last, needle, lower) then [EntryOf(last)] else [];
      assert MatchesIn(a + b, |a + b|, needle, lower) == MatchesIn(a + front, |a + front|, needle, lower) + e;
    }
  }

  lemma {:induction false} MatchesOfPrefix(whole: seq<Visit>, part: seq<Visit>, n: nat, needle: string,
                                           lower: string -> string)
    requires n <= |part| <= |whole| && part == whole[..|part|]
    ensures MatchesIn(whole, n, needle, lower) == MatchesIn(part, n, needle, lower)
  {
    if n > 0 {
      MatchesOfPrefix(whole, part, n - 1, needle, lower);
    }
  }

  // A visit gives the same entry wherever it stands.
  lemma MatchesApart(left: seq<Visit>, v: Visit, right: seq<Visit>, needle: string, lower: string -> string)
    ensures var whole, rest := left + ([v] + right), left + right;
            multiset(MatchesIn(whole, |whole|, needle, lower))
              == multiset(MatchesIn([v], 1, needle, lower)) + multiset(MatchesIn(rest, |rest|, needle, lower))
  {
    MatchesAdd(left, [v] + right, needle, lower);
    MatchesAdd([v], right, needle, lower);
    MatchesAdd(left, right, needle, lower);
  }

  lemma VisitsWithout(a: seq<Visit>, left: seq<Visit>, v: Visit, right: seq<Visit>)
    requires multiset([v] + a) == multiset(left + ([v] + right))
    ensures multiset(a) == multiset(left + right)
  {
    assert multiset(a) == multiset([v] + a) - multiset{v};
    assert multiset(left + right) == multiset(left) + multiset(right) == multiset(left + ([v] + right)) - multiset{v};
  }

  function MatchedIn(visits: seq<Visit>, needle: string, lower: string -> string): multiset<Entry> {
    multiset(MatchesIn(visits, |visits|, needle, lower))
  }

  lemma OneMoreMatched(a: seq<Visit>, left: seq<Visit>, v: Visit, right: seq<Visit>, needle: string,
                       lower: string -> string)
    requires MatchedIn(a, needle, lower) == MatchedIn(left + right, needle, lower)
    ensures MatchedIn([v] + a, needle, lower) == MatchedIn(left + ([v] + right), needle, lower)
  {
    MatchesAdd([v], a, needle, lower);
    MatchesApart(left, v, right, needle, lower);
  }

  lemma {:induction false} SameVisitsSameMatches(a: seq<Visit>, b: seq<Visit>, needle: string, lower: string -> string)
    requires multiset(a) == multiset(b)
    ensures MatchedIn(a, needle, lower) == MatchedIn(b, needle, lower)
  {
    if a == [] {
      assert |b| == |multiset(b)| == 0;
    } else {
      var v, rest := a[0], a[1..];
      var left, right := Apart(a, b);
      assert a == [v] + rest;
      VisitsWithout(rest, left, v, right);
      SameVisitsSameMatches(rest, left + right, needle, lower);
      OneMoreMatched(rest, left, v, right, needle, lower);
    }
  }

  lemma Apart(a: seq<Visit>, b: seq<Visit>) returns (left: seq<Visit>, right: seq<Visit>)
    requires a != [] && multiset(a) == multiset(b)
    ensures b == left + ([a[0]] + right)
  {
    assert a[0] in multiset(b);
    var k :| 0 <= k < |b| && b[k] == a[0];
    left, right := b[..k], b[k + 1..];
  }

  // When nothing was cut short the listing holds exactly the matching names of
  // the whole tree, each as often as it is there.
  lemma UncutListingIsComplete(starts: seq<Start>, needle: string, limit: nat, lower: string -> string)
    requires !Listed(WalkAll(starts), needle, limit, lower).truncated
    ensures multiset(Listed(WalkAll(starts), needle, limit, lower).entries)
         == multiset(MatchesIn(EverythingUnder(starts), |EverythingUnder(starts)|, needle, lower))
  {
    UncutIsAll(WalkAll(starts), needle, limit, lower);
    WalkAllIsEverything(starts);
    SameVisitsSameMatches(WalkAll(starts), EverythingUnder(starts), needle, lower);
    assert MatchedIn(WalkAll(starts), needle, lower) == MatchedIn(EverythingUnder(starts), needle, lower);
  }

  lemma UncutIsAll(visits: seq<Visit>, needle: string, limit: nat, lower: string -> string)
    requires !Listed(visits, needle, limit, lower).truncated
    ensures Listed(visits, needle, limit, lower).entries == MatchesIn(visits, |visits|, needle, lower)
            && NoneDeep(visits)
  {
    ListedIs(visits, needle, limit, lower);
    var m := MatchesIn(visits, |visits|, needle, lower);
    assert m[..|m|] == m;
    forall v | v in visits
      ensures !TooDeep(v)
    {
      var k :| 0 <= k < |visits| && visits[k] == v;
      assert !FoundDeep(visits, |visits|);
    }
  }
}
