// Listing a workspace breadth first, under budgets, over a fixed tree.

module Listing {
  // ===== The tree =====

  // What is found under a name. A link to a file is a file here; a directory
  // that cannot be read has no children to offer, and some names have no
  // metadata at all.
  datatype Node = File | Directory(readable: bool, children: seq<Child>) | LinkToDirectory | NoMetadata
  datatype Child = Child(name: string, node: Node)

  // A directory waiting to be read, by its path below its root.
  datatype Dir = Dir(root: string, path: seq<string>, depth: nat, readable: bool, children: seq<Child>)

  datatype Start = Start(root: string, readable: bool, children: seq<Child>)

  // One name the walk looks at: what it is, and how deep the directory it is in.
  datatype Visit = Visit(root: string, path: seq<string>, depth: nat, node: Node)

  datatype Entry = Entry(root: string, path: seq<string>, isDir: bool)
  datatype Listing = Listing(entries: seq<Entry>, truncated: bool)

  const SKIPPED := [".git", "node_modules", "target", "dist", "build", ".venv", "venv", "__pycache__", ".next",
      ".cache",
                    ".mjx-cache"]
  const MAX_VISITS: nat := 20000
  const MAX_DEPTH: nat := 12

  function NameOf(v: Visit): string {
    if v.path == [] then "" else v.path[|v.path| - 1]
  }

  // A directory not skipped whole.
  predicate IsOpen(v: Visit) {
    v.node.Directory? && NameOf(v) !in SKIPPED
  }

  predicate Offered(v: Visit) {
    v.node.File? || IsOpen(v)
  }

  predicate Descends(v: Visit) {
    IsOpen(v) && v.depth + 1 <= MAX_DEPTH
  }

  // A directory the walk offers but is too deep for it to read.
  predicate TooDeep(v: Visit) {
    IsOpen(v) && v.depth + 1 > MAX_DEPTH
  }

  predicate Contains(text: string, part: string) {
    exists i | 0 <= i <= |text| :: part <= text[i..]
  }

  function Joined(path: seq<string>): string {
    if path == [] then "" else if |path| == 1 then path[0] else Joined(path[..|path| - 1]) + "/" + path[|path| - 1]
  }

  predicate Matches(v: Visit, needle: string, lower: string -> string) {
    Offered(v) && (needle == "" || Contains(lower(Joined(v.path)), needle))
  }

  function EntryOf(v: Visit): Entry {
    Entry(v.root, v.path, v.node.Directory?)
  }

  // ===== The order of the walk =====

  function VisitTo(dir: Dir, child: Child): Visit {
    Visit(dir.root, dir.path + [child.name], dir.depth, child.node)
  }

  function DirAt(v: Visit): Dir
    requires v.node.Directory?
  {
    Dir(v.root, v.path, v.depth + 1, v.node.readable, v.node.children)
  }

  function ChildrenOf(dir: Dir): seq<Child> {
    if dir.readable then dir.children else []
  }

  // The first n names of a directory, and the directories among them.
  function VisitsTo(dir: Dir, n: nat): seq<Visit>
    requires n <= |ChildrenOf(dir)|
  {
    if n == 0 then [] else VisitsTo(dir, n - 1) + [VisitTo(dir, ChildrenOf(dir)[n - 1])]
  }

  function SubdirsTo(dir: Dir, n: nat): seq<Dir>
    requires n <= |ChildrenOf(dir)|
  {
    if n == 0 then []
    else
      var v := VisitTo(dir, ChildrenOf(dir)[n - 1]);
      SubdirsTo(dir, n - 1) + if Descends(v) then [DirAt(v)] else []
  }

  function VisitsOf(dir: Dir): seq<Visit> { VisitsTo(dir, |ChildrenOf(dir)|) }
  function SubdirsOf(dir: Dir): seq<Dir> { SubdirsTo(dir, |ChildrenOf(dir)|) }

  function SizeOf(node: Node): nat
    decreases node
  {
    match node
    case Directory(_, children) => 1 + SizeOfAll(children)
    case _ => 1
  }

  function SizeOfAll(children: seq<Child>): nat
    decreases children
  {
    if children == [] then 0
    else SizeOfAll(children[..|children| - 1]) + SizeOf(children[|children| - 1].node)
  }

  function QueueSize(queue: seq<Dir>): nat {
    if queue == [] then 0
    else QueueSize(queue[..|queue| - 1]) + 1 + SizeOfAll(ChildrenOf(queue[|queue| - 1]))
  }

  lemma {:induction false} QueueSizeAdds(a: seq<Dir>, b: seq<Dir>)
    ensures QueueSize(a + b) == QueueSize(a) + QueueSize(b)
  {
    if b == [] {
      assert a + b == a;
    } else {
      assert (a + b)[..|a + b| - 1] == a + b[..|b| - 1];
      QueueSizeAdds(a, b[..|b| - 1]);
    }
  }

  lemma QueueSizeOfOne(v: Visit)
    requires v.node.Directory?
    ensures QueueSize([DirAt(v)]) <= SizeOf(v.node)
  {
    assert [DirAt(v)][..0] == [];
  }

  lemma SizeOfMore(children: seq<Child>, n: nat)
    requires 0 < n <= |children|
    ensures SizeOfAll(children[..n]) == SizeOfAll(children[..n - 1]) + SizeOf(children[n - 1].node)
  {
    assert children[..n][..n - 1] == children[..n - 1];
  }

  lemma {:induction false} SubdirsAreSmaller(dir: Dir, n: nat)
    requires n <= |ChildrenOf(dir)|
    ensures QueueSize(SubdirsTo(dir, n)) <= SizeOfAll(ChildrenOf(dir)[..n])
  {
    if n > 0 {
      var v := VisitTo(dir, ChildrenOf(dir)[n - 1]);
      SubdirsAreSmaller(dir, n - 1);
      SizeOfMore(ChildrenOf(dir), n);
      if Descends(v) {
        QueueSizeAdds(SubdirsTo(dir, n - 1), [DirAt(v)]);
        QueueSizeOfOne(v);
        assert SubdirsTo(dir, n) == SubdirsTo(dir, n - 1) + [DirAt(v)];
      } else {
        assert SubdirsTo(dir, n) == SubdirsTo(dir, n - 1);
      }
    }
  }

  lemma QueueShrinks(queue: seq<Dir>)
    requires queue != []
    ensures QueueSize(queue[1..] + SubdirsOf(queue[0])) < QueueSize(queue)
  {
    var children := ChildrenOf(queue[0]);
    assert queue == [queue[0]] + queue[1..] && children[..|children|] == children;
    QueueSizeAdds([queue[0]], queue[1..]);
    QueueSizeAdds(queue[1..], SubdirsOf(queue[0]));
    SubdirsAreSmaller(queue[0], |children|);
  }

  // Everything a walk from this queue looks at, in order.
  function Walk(queue: seq<Dir>): seq<Visit>
    decreases QueueSize(queue)
  {
    if queue == [] then []
    else
      QueueShrinks(queue);
      VisitsOf(queue[0]) + Walk(queue[1..] + SubdirsOf(queue[0]))
  }

  function RootDir(start: Start): Dir {
    Dir(start.root, [], 0, start.readable, start.children)
  }

  function WalkAll(starts: seq<Start>): seq<Visit> {
    if starts == [] then [] else Walk([RootDir(starts[0])]) + WalkAll(starts[1..])
  }

  // ===== What is taken from it =====

  datatype Progress = Progress(entries: seq<Entry>, truncated: bool, stopped: bool)

  // One more name, the n-th looked at.
  function Looked(p: Progress, v: Visit, n: nat, needle: string, limit: nat, lower: string -> string): Progress {
    if p.stopped then p
    else if n > MAX_VISITS then Progress(p.entries, true, true)
    else if Matches(v, needle, lower) && |p.entries| >= limit then Progress(p.entries, true, true)
    else
      Progress(if Matches(v, needle, lower) then p.entries + [EntryOf(v)] else p.entries, p.truncated
          || TooDeep(v), false)
  }

  function Scan(visits: seq<Visit>, n: nat, needle: string, limit: nat, lower: string -> string): Progress
    requires n <= |visits|
  {
    if n == 0 then Progress([], false, false)
    else Looked(Scan(visits, n - 1, needle, limit, lower), visits[n - 1], n, needle, limit, lower)
  }

  function Listed(visits: seq<Visit>, needle: string, limit: nat, lower: string -> string): Listing {
    var p := Scan(visits, |visits|, needle, limit, lower);
    Listing(p.entries, p.truncated)
  }

  lemma {:induction false} StoppedStays(visits: seq<Visit>, n: nat, m: nat, needle: string, limit: nat,
                                        lower: string -> string)
    requires n <= m <= |visits| && Scan(visits, n, needle, limit, lower).stopped
    ensures Scan(visits, m, needle, limit, lower) == Scan(visits, n, needle, limit, lower)
  {
    if m > n {
      StoppedStays(visits, n, m - 1, needle, limit, lower);
    }
  }

  // ===== The walk as it runs =====

  // After `visits` names, the rest of the whole walk is this.
  predicate Remaining(all: seq<Visit>, visits: nat, rest: seq<Visit>) {
    visits <= |all| && all[visits..] == rest
  }

  lemma OneVisited(all: seq<Visit>, visits: nat, v: Visit, rest: seq<Visit>)
    requires Remaining(all, visits, [v] + rest)
    ensures visits < |all| && all[visits] == v && Remaining(all, visits + 1, rest)
  {
    assert all[visits..][0] == v && all[visits..][1..] == rest;
    assert all[visits + 1..] == all[visits..][1..];
  }

  // The names of a directory from the n-th on.
  function VisitsFrom(dir: Dir, n: nat): seq<Visit>
    requires n <= |ChildrenOf(dir)|
    decreases |ChildrenOf(dir)| - n
  {
    if n == |ChildrenOf(dir)| then [] else [VisitTo(dir, ChildrenOf(dir)[n])] + VisitsFrom(dir, n + 1)
  }

  lemma {:induction false} VisitsSplit(dir: Dir, n: nat)
    requires n <= |ChildrenOf(dir)|
    ensures VisitsTo(dir, n) + VisitsFrom(dir, n) == VisitsOf(dir)
    decreases |ChildrenOf(dir)| - n
  {
    if n < |ChildrenOf(dir)| {
      VisitsSplit(dir, n + 1);
      var v := VisitTo(dir, ChildrenOf(dir)[n]);
      assert VisitsTo(dir, n) + ([v] + VisitsFrom(dir, n + 1)) == (VisitsTo(dir, n) + [v]) + VisitsFrom(dir, n + 1);
    }
  }

  // The first `visits` names gave these entries, and the walk goes on.
  predicate Found(all: seq<Visit>, visits: nat, needle: string, limit: nat, lower: string -> string,
                  entries: seq<Entry>, truncated: bool) {
    visits <= |all| && Scan(all, visits, needle, limit, lower) == Progress(entries, truncated, false)
  }

  lemma FoundNext(all: seq<Visit>, visits: nat, needle: string, limit: nat, lower: string -> string,
                  entries: seq<Entry>, truncated: bool)
    requires visits < |all| && Found(all, visits, needle, limit, lower, entries, truncated)
    ensures var v := all[visits];
            if visits + 1 > MAX_VISITS || (Matches(v, needle, lower) && |entries| >= limit) then
              Listed(all, needle, limit, lower) == Listing(entries, true)
            else
              Found(all, visits + 1, needle, limit, lower,
                    if Matches(v, needle, lower) then entries + [EntryOf(v)] else entries, truncated || TooDeep(v))
  {
    if Scan(all, visits + 1, needle, limit, lower).stopped {
      StoppedStays(all, visits + 1, |all|, needle, limit, lower);
    }
  }

  lemma AllFound(all: seq<Visit>, needle: string, limit: nat, lower: string -> string, entries: seq<Entry>,
                 truncated: bool)
    requires Found(all, |all|, needle, limit, lower, entries, truncated)
    ensures Listed(all, needle, limit, lower) == Listing(entries, truncated)
  {
  }

  lemma WalkUnfolds(queue: seq<Dir>)
    requires queue != []
    ensures Walk(queue) == VisitsOf(queue[0]) + Walk(queue[1..] + SubdirsOf(queue[0]))
  {
    QueueShrinks(queue);
  }

  lemma Regrouped(a: seq<Visit>, b: seq<Visit>, c: seq<Visit>)
    ensures (a + b) + c == a + (b + c)
  {
  }

  // The walk of a queue begins with the first directory's names.
  lemma FirstDirectory(all: seq<Visit>, visits: nat, queue: seq<Dir>, later: seq<Visit>)
    requires queue != [] && Remaining(all, visits, Walk(queue) + later)
    ensures Remaining(all, visits, VisitsFrom(queue[0], 0) + (Walk(queue[1..] + SubdirsOf(queue[0])) + later))
  {
    WalkUnfolds(queue);
    VisitsSplit(queue[0], 0);
    Regrouped(VisitsOf(queue[0]), Walk(queue[1..] + SubdirsOf(queue[0])), later);
  }

  lemma NextChild(all: seq<Visit>, visits: nat, dir: Dir, i: nat, next: seq<Visit>)
    requires i < |ChildrenOf(dir)| && Remaining(all, visits, VisitsFrom(dir, i) + next)
    ensures visits < |all| && all[visits] == VisitTo(dir, ChildrenOf(dir)[i])
    ensures Remaining(all, visits + 1, VisitsFrom(dir, i + 1) + next)
  {
    var v := VisitTo(dir, ChildrenOf(dir)[i]);
    assert VisitsFrom(dir, i) + next == [v] + (VisitsFrom(dir, i + 1) + next);
    OneVisited(all, visits, v, VisitsFrom(dir, i + 1) + next);
  }

  lemma LastChild(all: seq<Visit>, visits: nat, dir: Dir, next: seq<Visit>)
    requires Remaining(all, visits, VisitsFrom(dir, |ChildrenOf(dir)|) + next)
    ensures Remaining(all, visits, next)
  {
    assert VisitsFrom(dir, |ChildrenOf(dir)|) + next == next;
  }

  lemma FirstStart(all: seq<Visit>, visits: nat, starts: seq<Start>, s: nat)
    requires s < |starts| && Remaining(all, visits, WalkAll(starts[s..]))
    ensures Remaining(all, visits, Walk([RootDir(starts[s])]) + WalkAll(starts[s + 1..]))
  {
    assert starts[s..][1..] == starts[s + 1..];
  }

  // Reads one directory: the inner loop of the listing.
  method ReadDirectory(dir: Dir, waiting: seq<Dir>, needle: string, limit: nat, lower: string -> string,
                       entries: seq<Entry>, truncated: bool, visits: nat, ghost all: seq<Visit>, ghost next: seq<Visit>)
    returns (queue: seq<Dir>, entries': seq<Entry>, truncated': bool, visits': nat, stopped: bool)
    requires Remaining(all, visits, VisitsFrom(dir, 0) + next)
    requires Found(all, visits, needle, limit, lower, entries, truncated)
    ensures stopped ==> Listed(all, needle, limit, lower) == Listing(entries', truncated')
    ensures !stopped ==> queue == waiting + SubdirsOf(dir) && Remaining(all, visits', next)
    ensures !stopped ==> Found(all, visits', needle, limit, lower, entries', truncated')
  {
    queue, entries', truncated', visits', stopped := waiting, entries, truncated, visits, false;
    var i := 0;
    while i < |ChildrenOf(dir)|
      invariant i <= |ChildrenOf(dir)| && queue == waiting + SubdirsTo(dir, i)
      invariant Remaining(all, visits', VisitsFrom(dir, i) + next)
      invariant Found(all, visits', needle, limit, lower, entries', truncated')
    {
      var v := VisitTo(dir, ChildrenOf(dir)[i]);
      NextChild(all, visits', dir, i, next);
      FoundNext(all, visits', needle, limit, lower, entries', truncated');
      visits' := visits' + 1;
      i := i + 1;
      if visits' > MAX_VISITS {
        truncated', stopped := true, true;
        return;
      }
      if !Offered(v) {
        continue;
      }
      if Matches(v, needle, lower) {
        if |entries'| >= limit {
          truncated', stopped := true, true;
          return;
        }
        entries' := entries' + [EntryOf(v)];
      }
      if v.node.Directory? {
        if dir.depth + 1 > MAX_DEPTH {
          truncated' := true;
          continue;
        }
        queue := queue + [DirAt(v)];
      }
    }
    LastChild(all, visits', dir, next);
  }

  method ListWithin(starts: seq<Start>, query: string, limit: nat, lower: string -> string) returns (listing: Listing)
    ensures listing == Listed(WalkAll(starts), lower(query), limit, lower)
  {
    var needle := lower(query);
    var entries: seq<Entry>, truncated, visits: nat := [], false, 0;
    ghost var all := WalkAll(starts);
    var s := 0;
    assert starts[0..] == starts;
    while s < |starts|
      invariant s <= |starts| && Remaining(all, visits, WalkAll(starts[s..]))
      invariant Found(all, visits, needle, limit, lower, entries, truncated)
    {
      FirstStart(all, visits, starts, s);
      ghost var later := WalkAll(starts[s + 1..]);
      var queue := [RootDir(starts[s])];
      while queue != []
        invariant Remaining(all, visits, Walk(queue) + later)
        invariant Found(all, visits, needle, limit, lower, entries, truncated)
        decreases QueueSize(queue)
      {
        FirstDirectory(all, visits, queue, later);
        QueueShrinks(queue);
        var stopped;
        queue, entries, truncated, visits, stopped :=
          ReadDirectory(queue[0], queue[1..], needle, limit, lower, entries, truncated, visits,
                        all, Walk(queue[1..] + SubdirsOf(queue[0])) + later);
        if stopped {
          return Listing(entries, truncated);
        }
      }
      assert Walk(queue) + later == later;
      s := s + 1;
    }
    assert starts[s..] == [];
    AllFound(all, needle, limit, lower, entries, truncated);
    return Listing(entries, truncated);
  }
}
