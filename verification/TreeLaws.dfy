// A listing that was not cut short, told by the tree alone.

module TreeLaws {
  import opened Listing
  import opened ListingLaws

  predicate IsSkipped(name: string) {
    name in {".git", "node_modules", "target", "dist", "build", ".venv", "venv", "__pycache__", ".next", ".cache",
        ".mjx-cache"}
  }

  // A child the walk goes into.
  predicate Entered(c: Child) {
    c.node.Directory? && c.node.readable && !IsSkipped(c.name)
  }

  // The names of a path lead from these children to this node, through directories
  // the walk goes into.
  predicate Lies(children: seq<Child>, path: seq<string>, node: Node) {
    path != [] && exists k | 0 <= k < |children| :: Leads(children[k], path, node)
  }

  predicate Leads(c: Child, path: seq<string>, node: Node)
    requires path != []
  {
    c.name == path[0] && if |path| == 1 then c.node == node else Entered(c) && Lies(c.node.children, path[1..], node)
  }

  // The names of a path, with a slash between each two.
  function Slashed(path: seq<string>): string {
    if path == [] then "" else if |path| == 1 then path[0] else path[0] + "/" + Slashed(path[1..])
  }

  // An entry for such a node: a file, or a directory not skipped, whose path has the
  // needle somewhere in it.
  ghost predicate Told(e: Entry, node: Node, needle: string, lower: string -> string) {
    && e.path != [] && e.isDir == node.Directory?
    && (node.File? || (node.Directory? && !IsSkipped(e.path[|e.path| - 1])))
    && (needle == "" || exists before, after :: lower(Slashed(e.path)) == before + needle + after)
  }

  ghost predicate Listable(start: Start, e: Entry, needle: string, lower: string -> string) {
    start.root == e.root && start.readable &&
    exists node :: Lies(start.children, e.path, node) && Told(e, node, needle, lower)
  }

  // ----- The names -----

  lemma SkippedAre(name: string)
    ensures name in SKIPPED <==> IsSkipped(name)
  {
    assert SKIPPED == [".git", "node_modules", "target", "dist", "build", ".venv", "venv", "__pycache__", ".next",
        ".cache",
                       ".mjx-cache"];
  }

  lemma {:induction false} JoinedIs(path: seq<string>)
    ensures Joined(path) == Slashed(path)
  {
    if |path| > 1 {
      JoinedFromFront(path);
      JoinedIs(path[1..]);
    }
  }

  lemma {:induction false} JoinedFromFront(path: seq<string>)
    requires |path| > 1
    ensures Joined(path) == path[0] + "/" + Joined(path[1..])
  {
    var front, last := path[..|path| - 1], path[|path| - 1];
    if |path| > 2 {
      JoinedFromFront(front);
      assert path[1..][..|path| - 2] == front[1..];
    } else {
      assert front == [path[0]] && path[1..] == [last];
    }
  }

  lemma ContainsIs(text: string, part: string)
    ensures Contains(text, part) <==> exists before, after :: text == before + part + after
  {
    if Contains(text, part) {
      var i :| 0 <= i <= |text| && part <= text[i..];
      assert text == text[..i] + part + text[i + |part|..];
    }
    if before, after :| text == before + part + after {
      assert text[|before|..] == part + after;
    }
  }

  lemma MatchesIs(v: Visit, needle: string, lower: string -> string)
    requires v.path != []
    ensures Matches(v, needle, lower) <==> Told(EntryOf(v), v.node, needle, lower)
  {
    JoinedIs(v.path);
    SkippedAre(NameOf(v));
    ContainsIs(lower(Joined(v.path)), needle);
  }

  // ----- The tree -----

  // A visit below a directory, and where it lies from there.
  predicate Below(dir: Dir, v: Visit) {
    && v.root == dir.root && |v.path| > |dir.path| && v.path[..|dir.path|] == dir.path
    && v.depth == dir.depth + |v.path| - |dir.path| - 1
  }

  predicate LiesBelow(dir: Dir, children: seq<Child>, v: Visit) {
    Below(dir, v) && Lies(children, v.path[|dir.path|..], v.node)
  }

  lemma LiesMore(children: seq<Child>, n: nat, path: seq<string>, node: Node)
    requires 0 < n <= |children| && path != []
    ensures Lies(children[..n], path, node) <==>
              Lies(children[..n - 1], path, node) || Leads(children[n - 1], path, node)
  {
    var all, fewer := children[..n], children[..n - 1];
    if Lies(all, path, node) {
      var k :| 0 <= k < |all| && Leads(all[k], path, node);
      assert k < n - 1 ==> Leads(fewer[k], path, node);
    }
    if Lies(fewer, path, node) {
      var k :| 0 <= k < |fewer| && Leads(fewer[k], path, node);
      assert Leads(all[k], path, node);
    }
    if Leads(children[n - 1], path, node) {
      assert Leads(all[n - 1], path, node);
    }
  }

  // The child itself,
  lemma VisitIs(dir: Dir, c: Child, v: Visit)
    ensures v == VisitTo(dir, c) <==>
              Below(dir, v) && |v.path| == |dir.path| + 1 && Leads(c, v.path[|dir.path|..], v.node)
  {
    if Below(dir, v) && |v.path| == |dir.path| + 1 {
      assert v.path == v.path[..|dir.path|] + [v.path[|dir.path|]];
    }
  }

  // and what lies beyond it.
  lemma BeyondIs(dir: Dir, c: Child, v: Visit)
    requires c.node.Directory?
    ensures var beyond := DirAt(VisitTo(dir, c));
            Entered(c) && LiesBelow(beyond, c.node.children, v) <==>
              Below(dir, v) && |v.path| > |dir.path| + 1 && Leads(c, v.path[|dir.path|..], v.node)
  {
    var n, beyond := |dir.path|, DirAt(VisitTo(dir, c));
    if |v.path| > n {
      assert v.path[..n + 1] == v.path[..n] + [v.path[n]];
      assert v.path[n..][1..] == v.path[n + 1..];
      assert beyond.path[..n] == dir.path;
      assert v.path[..n + 1][..n] == v.path[..n];
    }
  }

  lemma {:induction false} EverythingLies(dir: Dir, n: nat, v: Visit)
    requires n <= |ChildrenOf(dir)|
    ensures v in EverythingTo(dir, n) <==> LiesBelow(dir, ChildrenOf(dir)[..n], v)
    decreases SizeOfAll(ChildrenOf(dir)), n
  {
    if n > 0 {
      var c := ChildrenOf(dir)[n - 1];
      var u := VisitTo(dir, c);
      EverythingLies(dir, n - 1, v);
      VisitIs(dir, c, v);
      SkippedAre(c.name);
      assert NameOf(u) == c.name;
      if |v.path| > |dir.path| {
        LiesMore(ChildrenOf(dir), n, v.path[|dir.path|..], v.node);
      }
      if IsOpen(u) {
        ChildIsSmaller(ChildrenOf(dir), n - 1);
        var beyond := DirAt(u);
        EverythingLies(beyond, |ChildrenOf(beyond)|, v);
        assert ChildrenOf(beyond)[..|ChildrenOf(beyond)|] == ChildrenOf(beyond);
        BeyondIs(dir, c, v);
      }
    }
  }

  lemma {:induction false} UnderStarts(starts: seq<Start>, v: Visit)
    ensures v in EverythingUnder(starts) <==>
              exists i | 0 <= i < |starts| :: LiesBelow(RootDir(starts[i]), ChildrenOf(RootDir(starts[i])), v)
  {
    if starts != [] {
      var dir := RootDir(starts[0]);
      UnderStarts(starts[1..], v);
      EverythingLies(dir, |ChildrenOf(dir)|, v);
      assert ChildrenOf(dir)[..|ChildrenOf(dir)|] == ChildrenOf(dir);
      if i :| 0 <= i < |starts[1..]| && LiesBelow(RootDir(starts[1..][i]), ChildrenOf(RootDir(starts[1..][i])), v) {
        assert starts[i + 1] == starts[1..][i];
      }
      if i :| 0 <= i < |starts| && LiesBelow(RootDir(starts[i]), ChildrenOf(RootDir(starts[i])), v) {
        assert i > 0 ==> starts[1..][i - 1] == starts[i];
      }
    }
  }

  // ----- The walk, cut short or not -----

  // A name the walk looks at: at most twelve directories lie between it and the one
  // it is below.
  predicate Reached(dir: Dir, v: Visit) {
    LiesBelow(dir, ChildrenOf(dir), v) && v.depth <= 12
  }

  predicate ReachedFrom(dirs: seq<Dir>, v: Visit) {
    exists i | 0 <= i < |dirs| :: Reached(dirs[i], v)
  }

  lemma ReachedFromBoth(a: seq<Dir>, b: seq<Dir>, v: Visit)
    ensures ReachedFrom(a + b, v) <==> ReachedFrom(a, v) || ReachedFrom(b, v)
  {
    if i :| 0 <= i < |a| && Reached(a[i], v) {
      assert Reached((a + b)[i], v);
    }
    if i :| 0 <= i < |b| && Reached(b[i], v) {
      assert Reached((a + b)[|a| + i], v);
    }
  }

  lemma OneReaches(dir: Dir, v: Visit)
    ensures ReachedFrom([dir], v) <==> Reached(dir, v)
  {
    if Reached(dir, v) {
      assert Reached([dir][0], v);
    }
  }

  lemma {:induction false} DirectoryReaches(dir: Dir, n: nat, v: Visit)
    requires n <= |ChildrenOf(dir)| && dir.depth <= 12
    ensures LiesBelow(dir, ChildrenOf(dir)[..n], v) && v.depth <= 12 <==>
              v in VisitsTo(dir, n) || ReachedFrom(SubdirsTo(dir, n), v)
  {
    if n > 0 {
      var c := ChildrenOf(dir)[n - 1];
      var u := VisitTo(dir, c);
      DirectoryReaches(dir, n - 1, v);
      VisitIs(dir, c, v);
      SkippedAre(c.name);
      assert NameOf(u) == c.name;
      if |v.path| > |dir.path| {
        LiesMore(ChildrenOf(dir), n, v.path[|dir.path|..], v.node);
      }
      if Descends(u) {
        ReachedFromBoth(SubdirsTo(dir, n - 1), [DirAt(u)], v);
        OneReaches(DirAt(u), v);
      } else {
        assert SubdirsTo(dir, n) == SubdirsTo(dir, n - 1);
      }
      if c.node.Directory? {
        BeyondIs(dir, c, v);
      }
    }
  }

  lemma {:induction false} QueueReaches(queue: seq<Dir>, v: Visit)
    requires forall d | d in queue :: d.depth <= 12
    ensures v in Walk(queue) <==> ReachedFrom(queue, v)
    decreases QueueSize(queue)
  {
    if queue != [] {
      var dir, next := queue[0], queue[1..] + SubdirsOf(queue[0]);
      QueueShrinks(queue);
      SubdirsAreNear(dir, |ChildrenOf(dir)|);
      QueueReaches(next, v);
      DirectoryReaches(dir, |ChildrenOf(dir)|, v);
      assert ChildrenOf(dir)[..|ChildrenOf(dir)|] == ChildrenOf(dir);
      ReachedFromBoth(queue[1..], SubdirsOf(dir), v);
      assert queue == [dir] + queue[1..];
      ReachedFromBoth([dir], queue[1..], v);
      OneReaches(dir, v);
    }
  }

  lemma {:induction false} SubdirsAreNear(dir: Dir, n: nat)
    requires n <= |ChildrenOf(dir)|
    ensures forall d | d in SubdirsTo(dir, n) :: d.depth <= 12
  {
    if n > 0 {
      SubdirsAreNear(dir, n - 1);
    }
  }

  predicate Holds(start: Start, v: Visit) {
    start.root == v.root && start.readable && Lies(start.children, v.path, v.node)
  }

  // What the walk looks at, whatever the budgets then leave of it: every name below
  // a root that can be read, through directories that can and are not skipped, at
  // most twelve of them, and no other.
  lemma {:induction false} WalkReaches(starts: seq<Start>, v: Visit)
    ensures v in WalkAll(starts) <==>
              v.path != [] && v.depth == |v.path| - 1 && |v.path| <= 13 &&
              exists i | 0 <= i < |starts| :: Holds(starts[i], v)
  {
    if starts != [] {
      var dir := RootDir(starts[0]);
      WalkReaches(starts[1..], v);
      QueueReaches([dir], v);
      OneReaches(dir, v);
      RootLies(starts[0], v);
      if i :| 0 <= i < |starts[1..]| && Holds(starts[1..][i], v) {
        assert starts[i + 1] == starts[1..][i];
      }
      if i :| 0 <= i < |starts| && Holds(starts[i], v) {
        assert i > 0 ==> starts[1..][i - 1] == starts[i];
      }
    }
  }

  lemma {:induction false} MatchedFrom(visits: seq<Visit>, n: nat, needle: string, lower: string -> string, e: Entry)
    requires n <= |visits|
    ensures e in MatchesIn(visits, n, needle, lower) <==>
              exists k | 0 <= k < n :: Matches(visits[k], needle, lower) && EntryOf(visits[k]) == e
  {
    if n > 0 {
      MatchedFrom(visits, n - 1, needle, lower, e);
    }
  }

  lemma RootLies(start: Start, v: Visit)
    ensures LiesBelow(RootDir(start), ChildrenOf(RootDir(start)), v) <==>
              v.root == start.root && start.readable && v.depth + 1 == |v.path| && Lies(start.children, v.path, v.node)
  {
    assert v.path[0..] == v.path;
    assert v.path[..0] == [];
  }

  // What the walk passes and matches, the tree calls for,
  lemma PassedIsListable(starts: seq<Start>, k: nat, needle: string, lower: string -> string)
    requires k < |EverythingUnder(starts)| && Matches(EverythingUnder(starts)[k], needle, lower)
    ensures exists i | 0 <= i < |starts| :: Listable(starts[i], EntryOf(EverythingUnder(starts)[k]), needle, lower)
  {
    var v := EverythingUnder(starts)[k];
    UnderStarts(starts, v);
    var i :| 0 <= i < |starts| && LiesBelow(RootDir(starts[i]), ChildrenOf(RootDir(starts[i])), v);
    RootLies(starts[i], v);
    MatchesIs(v, needle, lower);
    assert Listable(starts[i], EntryOf(v), needle, lower);
  }

  // and what it calls for is passed and matched.
  lemma ListableIsPassed(starts: seq<Start>, i: nat, needle: string, lower: string -> string, e: Entry)
    returns (k: nat)
    requires i < |starts| && Listable(starts[i], e, needle, lower)
    ensures k < |EverythingUnder(starts)| && Matches(EverythingUnder(starts)[k], needle, lower)
    ensures EntryOf(EverythingUnder(starts)[k]) == e
  {
    var node :| Lies(starts[i].children, e.path, node) && Told(e, node, needle, lower);
    var v := Visit(e.root, e.path, |e.path| - 1, node);
    RootLies(starts[i], v);
    UnderStarts(starts, v);
    MatchesIs(v, needle, lower);
    k :| 0 <= k < |EverythingUnder(starts)| && EverythingUnder(starts)[k] == v;
  }

  // An uncut listing has exactly the entries the tree calls for: for each root that
  // can be read, each path into it through directories that can and are not
  // skipped, to a file or such a directory, with the needle somewhere in the path.
  lemma {:induction false} UncutListingTells(starts: seq<Start>, needle: string, limit: nat, lower: string -> string,
                                             e: Entry)
    requires !Listed(WalkAll(starts), needle, limit, lower).truncated
    ensures e in Listed(WalkAll(starts), needle, limit, lower).entries <==>
              exists i | 0 <= i < |starts| :: Listable(starts[i], e, needle, lower)
  {
    var listing, all := Listed(WalkAll(starts), needle, limit, lower).entries, EverythingUnder(starts);
    UncutListingIsComplete(starts, needle, limit, lower);
    assert e in listing <==> e in multiset(listing);
    assert e in MatchesIn(all, |all|, needle, lower) <==> e in multiset(MatchesIn(all, |all|, needle, lower));
    MatchedFrom(all, |all|, needle, lower, e);
    if e in listing {
      var k :| 0 <= k < |all| && Matches(all[k], needle, lower) && EntryOf(all[k]) == e;
      PassedIsListable(starts, k, needle, lower);
    }
    if i :| 0 <= i < |starts| && Listable(starts[i], e, needle, lower) {
      var k := ListableIsPassed(starts, i, needle, lower, e);
    }
  }

  // The budgets, in figures: a listing is cut short exactly when there are more
  // matches than asked for, more than twenty thousand names, or, among those, a
  // directory it would go into twelve below its root.
  lemma BudgetsAre(visits: seq<Visit>, needle: string, limit: nat, lower: string -> string)
    ensures var n := if |visits| < 20000 then |visits| else 20000;
            var m := MatchesIn(visits, n, needle, lower);
            Listed(visits, needle, limit, lower).truncated <==>
              || |m| > limit || |visits| > 20000
              || exists k | 0 <= k < n ::
                   visits[k].node.Directory? && !IsSkipped(NameOf(visits[k])) && visits[k].depth >= 12
  {
    var n := if |visits| < 20000 then |visits| else 20000;
    ListedIs(visits, needle, limit, lower);
    forall k | 0 <= k < n
      ensures TooDeep(visits[k]) <==>
                visits[k].node.Directory? && !IsSkipped(NameOf(visits[k])) && visits[k].depth >= 12
    {
      SkippedAre(NameOf(visits[k]));
    }
  }
}
