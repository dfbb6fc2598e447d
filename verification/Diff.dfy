// The line diff shown for an edit: a longest-common-subsequence table, a walk
// along it, and a trim to the neighbourhood of each change.

module Diff {
  import opened Wrappers
  import opened Subsequences

  datatype Kind = Context | Removed | Added

  datatype DiffLine = DiffLine(kind: Kind, oldLine: Option<nat>, newLine: Option<nat>, text: string)

  // ===== Edit scripts =====

  function Both(i: nat, j: nat, text: string): DiffLine {
    DiffLine(Context, Some(i + 1), Some(j + 1), text)
  }

  function Old(i: nat, text: string): DiffLine {
    DiffLine(Removed, Some(i + 1), None, text)
  }

  function New(j: nat, text: string): DiffLine {
    DiffLine(Added, None, Some(j + 1), text)
  }

  // The texts a script shows of the old side, of the new side, and of both.
  function OldSide(lines: seq<DiffLine>): seq<string> {
    if lines == [] then []
    else (if lines[0].kind == Added then [] else [lines[0].text]) + OldSide(lines[1..])
  }

  function NewSide(lines: seq<DiffLine>): seq<string> {
    if lines == [] then []
    else (if lines[0].kind == Removed then [] else [lines[0].text]) + NewSide(lines[1..])
  }

  function Shared(lines: seq<DiffLine>): seq<string> {
    if lines == [] then []
    else (if lines[0].kind == Context then [lines[0].text] else []) + Shared(lines[1..])
  }

  // Each line is numbered, on each side it exists on, by the lines before it there.
  predicate Numbered(lines: seq<DiffLine>, i: nat, j: nat) {
    lines == [] ||
    match lines[0].kind
    case Context => lines[0] == Both(i, j, lines[0].text) && Numbered(lines[1..], i + 1, j + 1)
    case Removed => lines[0] == Old(i, lines[0].text) && Numbered(lines[1..], i + 1, j)
    case Added => lines[0] == New(j, lines[0].text) && Numbered(lines[1..], i, j + 1)
  }

  // A script turns `before` into `after`, whose first lines are numbered i+1 and j+1.
  predicate Turns(lines: seq<DiffLine>, before: seq<string>, after: seq<string>, i: nat, j: nat) {
    OldSide(lines) == before && NewSide(lines) == after && Numbered(lines, i, j)
  }

  function CountOf(lines: seq<DiffLine>, kind: Kind): nat {
    if lines == [] then 0 else (if lines[0].kind == kind then 1 else 0) + CountOf(lines[1..], kind)
  }

  function Changes(lines: seq<DiffLine>): nat {
    CountOf(lines, Added) + CountOf(lines, Removed)
  }

  // ----- The script the walk chooses -----

  function Script(before: seq<string>, after: seq<string>, i: nat, j: nat): seq<DiffLine>
    decreases |before| + |after|
  {
    if before == [] && after == [] then []
    else if before != [] && after != [] && before[0] == after[0] then
      [Both(i, j, before[0])] + Script(before[1..], after[1..], i + 1, j + 1)
    else if after == [] || (before != [] && Lcs(before[1..], after) >= Lcs(before, after[1..])) then
      [Old(i, before[0])] + Script(before[1..], after, i + 1, j)
    else
      [New(j, after[0])] + Script(before, after[1..], i, j + 1)
  }

  lemma TurnsOneMore(line: DiffLine, rest: seq<DiffLine>, before: seq<string>, after: seq<string>, i: nat, j: nat)
    requires match line.kind
             case Context => before != [] && after != [] && before[0] == after[0] && line == Both(i, j, before[0])
               && Turns(rest, before[1..], after[1..], i + 1, j + 1)
             case Removed => before != [] && line == Old(i, before[0]) && Turns(rest, before[1..], after, i + 1, j)
             case Added => after != [] && line == New(j, after[0]) && Turns(rest, before, after[1..], i, j + 1)
    ensures Turns([line] + rest, before, after, i, j)
  {
    assert ([line] + rest)[1..] == rest;
  }

  lemma {:induction false} ScriptTurns(before: seq<string>, after: seq<string>, i: nat, j: nat)
    ensures Turns(Script(before, after, i, j), before, after, i, j)
    decreases |before| + |after|
  {
    if before == [] && after == [] {
    } else if before != [] && after != [] && before[0] == after[0] {
      ScriptTurns(before[1..], after[1..], i + 1, j + 1);
      TurnsOneMore(Both(i, j, before[0]), Script(before[1..], after[1..], i + 1, j + 1), before, after, i, j);
    } else if after == [] || (before != [] && Lcs(before[1..], after) >= Lcs(before, after[1..])) {
      ScriptTurns(before[1..], after, i + 1, j);
      TurnsOneMore(Old(i, before[0]), Script(before[1..], after, i + 1, j), before, after, i, j);
    } else {
      ScriptTurns(before, after[1..], i, j + 1);
      TurnsOneMore(New(j, after[0]), Script(before, after[1..], i, j + 1), before, after, i, j);
    }
  }

  // ----- What it says of each line -----

  function NumberOn(line: DiffLine, left: bool): Option<nat> {
    if left then line.oldLine else line.newLine
  }

  predicate Truthful(line: DiffLine, texts: seq<string>, i: nat, left: bool) {
    var number := NumberOn(line, left);
    && (number.Some? <==> line.kind != if left then Added else Removed)
    && (number.Some? ==> i < number.value <= i + |texts| && line.text == texts[number.value - i - 1])
  }

  predicate Following(line: DiffLine, next: DiffLine, left: bool) {
    NumberOn(line, left).Some? && NumberOn(next, left).Some? ==> NumberOn(line, left).value < NumberOn(next, left).value
  }

  predicate Told(lines: seq<DiffLine>, n: nat, left: bool) {
    exists k | 0 <= k < |lines| :: NumberOn(lines[k], left) == Some(n)
  }

  // A line with a number on one side has the text that is there; the numbers go up,
  // and none is left out. Only a line that is new is not numbered on the left, and
  // only one that is gone not on the right.
  predicate Tells(lines: seq<DiffLine>, texts: seq<string>, i: nat, left: bool) {
    && (forall k | 0 <= k < |lines| :: Truthful(lines[k], texts, i, left))
    && (forall k, m | 0 <= k < m < |lines| :: Following(lines[k], lines[m], left))
    && (forall n | i < n <= i + |texts| :: Told(lines, n, left))
  }

  lemma TellsFromNext(line: DiffLine, rest: seq<DiffLine>, texts: seq<string>, i: nat, left: bool)
    requires texts != [] && Tells(rest, texts[1..], i + 1, left)
    requires Truthful(line, texts, i, left) && NumberOn(line, left) == Some(i + 1)
    ensures Tells([line] + rest, texts, i, left)
  {
    var lines := [line] + rest;
    forall k | 0 <= k < |rest|
      ensures Truthful(rest[k], texts, i, left) && Following(line, rest[k], left)
    {
      assert Truthful(rest[k], texts[1..], i + 1, left);
    }
    forall n | i < n <= i + |texts|
      ensures Told(lines, n, left)
    {
      if n == i + 1 {
        assert NumberOn(lines[0], left) == Some(n);
      } else {
        assert Told(rest, n, left);
        var k :| 0 <= k < |rest| && NumberOn(rest[k], left) == Some(n);
        assert NumberOn(lines[k + 1], left) == Some(n);
      }
    }
  }

  lemma TellsPast(line: DiffLine, rest: seq<DiffLine>, texts: seq<string>, i: nat, left: bool)
    requires Tells(rest, texts, i, left) && Truthful(line, texts, i, left) && NumberOn(line, left) == None
    ensures Tells([line] + rest, texts, i, left)
  {
    var lines := [line] + rest;
    forall n | i < n <= i + |texts|
      ensures Told(lines, n, left)
    {
      assert Told(rest, n, left);
      var k :| 0 <= k < |rest| && NumberOn(rest[k], left) == Some(n);
      assert NumberOn(lines[k + 1], left) == Some(n);
    }
  }

  // A script that turns one text into another tells of every line of either, once,
  // in order and under its own number.
  lemma {:induction false} ScriptTells(lines: seq<DiffLine>, before: seq<string>, after: seq<string>, i: nat, j: nat)
    requires Turns(lines, before, after, i, j)
    ensures Tells(lines, before, i, true) && Tells(lines, after, j, false)
  {
    if lines != [] {
      TailTurns(lines, before, after, i, j);
      var line, rest := lines[0], lines[1..];
      assert lines == [line] + rest;
      match line.kind
      case Context =>
        ScriptTells(rest, before[1..], after[1..], i + 1, j + 1);
        TellsFromNext(line, rest, before, i, true);
        TellsFromNext(line, rest, after, j, false);
      case Removed =>
        ScriptTells(rest, before[1..], after, i + 1, j);
        TellsFromNext(line, rest, before, i, true);
        TellsPast(line, rest, after, j, false);
      case Added =>
        ScriptTells(rest, before, after[1..], i, j + 1);
        TellsPast(line, rest, before, i, true);
        TellsFromNext(line, rest, after, j, false);
    }
  }

  // So does the walk's.
  lemma WalkTells(before: seq<string>, after: seq<string>)
    ensures var lines := Script(before, after, 0, 0); Tells(lines, before, 0, true) && Tells(lines, after, 0, false)
  {
    ScriptTurns(before, after, 0, 0);
    ScriptTells(Script(before, after, 0, 0), before, after, 0, 0);
  }

  lemma {:induction false} ScriptShares(before: seq<string>, after: seq<string>, i: nat, j: nat)
    ensures |Shared(Script(before, after, i, j))| == Lcs(before, after)
    decreases |before| + |after|
  {
    if before == [] && after == [] {
    } else if before != [] && after != [] && before[0] == after[0] {
      ScriptShares(before[1..], after[1..], i + 1, j + 1);
    } else if after == [] || (before != [] && Lcs(before[1..], after) >= Lcs(before, after[1..])) {
      ScriptShares(before[1..], after, i + 1, j);
    } else {
      ScriptShares(before, after[1..], i, j + 1);
    }
  }

  lemma {:induction false} SharedIsCommon(lines: seq<DiffLine>)
    ensures Within(Shared(lines), OldSide(lines)) && Within(Shared(lines), NewSide(lines))
  {
    if lines != [] {
      SharedIsCommon(lines[1..]);
      match lines[0].kind
      case Context =>
      case Removed =>
        assert Shared(lines) == Shared(lines[1..]) && OldSide(lines)[1..] == OldSide(lines[1..]);
        assert NewSide(lines) == NewSide(lines[1..]);
        WithinGrows(Shared(lines), OldSide(lines));
      case Added =>
        assert Shared(lines) == Shared(lines[1..]) && NewSide(lines)[1..] == NewSide(lines[1..]);
        assert OldSide(lines) == OldSide(lines[1..]);
        WithinGrows(Shared(lines), NewSide(lines));
    }
  }

  lemma {:induction false} SidesCount(lines: seq<DiffLine>)
    ensures |OldSide(lines)| == |Shared(lines)| + CountOf(lines, Removed)
    ensures |NewSide(lines)| == |Shared(lines)| + CountOf(lines, Added)
    ensures |lines| == |Shared(lines)| + Changes(lines)
  {
    if lines != [] {
      SidesCount(lines[1..]);
    }
  }

  // No script that turns one text into the other changes fewer lines.
  lemma ScriptIsShortest(before: seq<string>, after: seq<string>, i: nat, j: nat, other: seq<DiffLine>)
    requires Turns(other, before, after, i, j)
    ensures Changes(Script(before, after, i, j)) == |before| + |after| - 2 * Lcs(before, after) <= Changes(other)
  {
    ScriptTurns(before, after, i, j);
    ScriptShares(before, after, i, j);
    SidesCount(Script(before, after, i, j));
    SidesCount(other);
    SharedIsCommon(other);
    WithinBothIsBounded(Shared(other), before, after);
  }

  // The lines it keeps are as many as the longest sequence both texts share.
  lemma ScriptKeepsTheMost(before: seq<string>, after: seq<string>, i: nat, j: nat)
    ensures Common(Shared(Script(before, after, i, j)), before, after)
    ensures forall part | Common(part, before, after) :: |part| <= |Shared(Script(before, after, i, j))|
  {
    var lines := Script(before, after, i, j);
    ScriptTurns(before, after, i, j);
    ScriptShares(before, after, i, j);
    SharedIsCommon(lines);
    GreedyIsExact(Shared(lines), before);
    GreedyIsExact(Shared(lines), after);
    LcsIsLongest(before, after);
  }

  // ----- Which of the shortest scripts -----

  function Rank(kind: Kind): nat {
    match kind
    case Context => 0
    case Removed => 1
    case Added => 2
  }

  // Where two scripts part, the first keeps the line, or else removes one.
  predicate AheadOf(lines: seq<DiffLine>, other: seq<DiffLine>) {
    lines == other ||
    (lines != [] && other != [] &&
     (Rank(lines[0].kind) < Rank(other[0].kind) || (lines[0] == other[0] && AheadOf(lines[1..], other[1..]))))
  }

  lemma TailTurns(lines: seq<DiffLine>, before: seq<string>, after: seq<string>, i: nat, j: nat)
    requires lines != [] && Turns(lines, before, after, i, j)
    ensures match lines[0].kind
            case Context =>
              && before != [] && after != [] && before[0] == after[0] && lines[0] == Both(i, j, before[0])
              && Turns(lines[1..], before[1..], after[1..], i + 1, j + 1)
            case Removed =>
              before != [] && lines[0] == Old(i, before[0]) && Turns(lines[1..], before[1..], after, i + 1, j)
            case Added =>
              after != [] && lines[0] == New(j, after[0]) && Turns(lines[1..], before, after[1..], i, j + 1)
  {
    match lines[0].kind
    case Context => assert OldSide(lines)[1..] == OldSide(lines[1..]) && NewSide(lines)[1..] == NewSide(lines[1..]);
    case Removed => assert OldSide(lines)[1..] == OldSide(lines[1..]) && NewSide(lines) == NewSide(lines[1..]);
    case Added => assert OldSide(lines) == OldSide(lines[1..]) && NewSide(lines)[1..] == NewSide(lines[1..]);
  }

  // No script keeps more lines than the recurrence says.
  lemma SharesBounds(lines: seq<DiffLine>, before: seq<string>, after: seq<string>, i: nat, j: nat)
    requires Turns(lines, before, after, i, j)
    ensures |Shared(lines)| <= Lcs(before, after)
  {
    SharedIsCommon(lines);
    WithinBothIsBounded(Shared(lines), before, after);
  }

  // Of all scripts that keep the most lines, the walk's is the first: this one
  // statement fixes its every line.
  lemma {:induction false} ScriptIsFirst(before: seq<string>, after: seq<string>, i: nat, j: nat, other: seq<DiffLine>)
    requires Turns(other, before, after, i, j) && |Shared(other)| == Lcs(before, after)
    ensures AheadOf(Script(before, after, i, j), other)
    decreases |before| + |after|
  {
    var lines := Script(before, after, i, j);
    if other == [] {
      assert before == [] && after == [];
    } else {
      TailTurns(other, before, after, i, j);
      if before != [] && after != [] && before[0] == after[0] {
        if other[0].kind == Context {
          ScriptIsFirst(before[1..], after[1..], i + 1, j + 1, other[1..]);
        }
      } else if after == [] || (before != [] && Lcs(before[1..], after) >= Lcs(before, after[1..])) {
        if other[0].kind == Removed {
          ScriptIsFirst(before[1..], after, i + 1, j, other[1..]);
        }
      } else if other[0].kind == Removed {
        SharesBounds(other[1..], before[1..], after, i + 1, j);
        assert false;
      } else {
        ScriptIsFirst(before, after[1..], i, j + 1, other[1..]);
      }
    }
  }

  // In particular a removal never follows an addition within one change.
  lemma {:induction false} RemovalsComeFirst(before: seq<string>, after: seq<string>, i: nat, j: nat, k: nat)
    requires k + 1 < |Script(before, after, i, j)|
    ensures var lines := Script(before, after, i, j);
            lines[k].kind == Added ==> lines[k + 1].kind != Removed
    decreases |before| + |after|
  {
    var lines := Script(before, after, i, j);
    if before != [] && after != [] && before[0] == after[0] {
      if k > 0 {
        RemovalsComeFirst(before[1..], after[1..], i + 1, j + 1, k - 1);
      }
    } else if after == [] || (before != [] && Lcs(before[1..], after) >= Lcs(before, after[1..])) {
      if k > 0 {
        RemovalsComeFirst(before[1..], after, i + 1, j, k - 1);
      }
    } else if k > 0 {
      RemovalsComeFirst(before, after[1..], i, j + 1, k - 1);
    } else if before != [] {
      LcsShrinks(before[1..], after);
      var rest := Script(before, after[1..], i, j + 1);
      assert lines[1] == rest[0];
    }
  }

  lemma LcsShrinks(a: seq<string>, b: seq<string>)
    requires b != []
    ensures Lcs(a, b[1..]) <= Lcs(a, b)
  {
    var part := LongestWithinBoth(a, b[1..]);
    WithinGrows(part, b);
    WithinBothIsBounded(part, a, b);
  }

  // ----- The table and the walk, as they run -----

  // Row i holds, from column j on, what the recurrence says.
  predicate RowRight(table: array2<nat>, before: seq<string>, after: seq<string>, i: nat, j: nat)
    requires i <= |before| && table.Length0 == |before| + 1 && table.Length1 == |after| + 1
    reads table
  {
    forall q | j <= q <= |after| :: table[i, q] == Lcs(before[i..], after[q..])
  }

  predicate IsTable(table: array2<nat>, before: seq<string>, after: seq<string>)
    reads table
  {
    && table.Length0 == |before| + 1 && table.Length1 == |after| + 1
    && forall i | 0 <= i <= |before| :: RowRight(table, before, after, i, 0)
  }

  method Table(before: seq<string>, after: seq<string>) returns (table: array2<nat>)
    ensures fresh(table) && IsTable(table, before, after)
  {
    table := new nat[|before| + 1, |after| + 1]((i, j) => 0);
    var i: nat := |before|;
    while i > 0
      invariant i <= |before|
      invariant forall p, q | 0 <= p < i && 0 <= q <= |after| :: table[p, q] == 0
      invariant forall p | i <= p <= |before| :: RowRight(table, before, after, p, 0)
    {
      i := i - 1;
      FillRow(table, before, after, i);
    }
  }

  method FillRow(table: array2<nat>, before: seq<string>, after: seq<string>, i: nat)
    requires i < |before| && table.Length0 == |before| + 1 && table.Length1 == |after| + 1
    requires RowRight(table, before, after, i + 1, 0) && table[i, |after|] == 0
    modifies table
    ensures forall p, q | 0 <= p <= |before| && p != i && 0 <= q <= |after| :: table[p, q] == old(table[p, q])
    ensures forall p | i < p <= |before| && old(RowRight(table, before, after, p, 0)) ::
              RowRight(table, before, after, p, 0)
    ensures RowRight(table, before, after, i, 0)
  {
    var j: nat := |after|;
    while j > 0
      invariant j <= |after| && RowRight(table, before, after, i, j)
      invariant forall p, q | 0 <= p <= |before| && p != i && 0 <= q <= |after| :: table[p, q] == old(table[p, q])
    {
      j := j - 1;
      LcsAt(before, after, i, j);
      assert old(table[i + 1, j]) == Lcs(before[i + 1..], after[j..]);
      assert old(table[i + 1, j + 1]) == Lcs(before[i + 1..], after[j + 1..]);
      table[i, j] := if before[i] == after[j] then table[i + 1, j + 1] + 1
                     else Larger(table[i + 1, j], table[i, j + 1]);
    }
  }

  lemma LcsAt(before: seq<string>, after: seq<string>, i: nat, j: nat)
    requires i < |before| && j < |after|
    ensures Lcs(before[i..], after[j..]) == if before[i] == after[j] then Lcs(before[i + 1..], after[j + 1..]) + 1
                                            else Larger(Lcs(before[i + 1..], after[j..]),
                                                Lcs(before[i..], after[j + 1..]))
  {
    assert before[i..][1..] == before[i + 1..] && after[j..][1..] == after[j + 1..];
  }

  // The script of what remains, unrolled one line.
  lemma ScriptAt(before: seq<string>, after: seq<string>, i: nat, j: nat)
    requires i <= |before| && j <= |after|
    ensures Script(before[i..], after[j..], i, j) ==
            if i == |before| && j == |after| then []
            else if i < |before| && j < |after| && before[i] == after[j] then
              [Both(i, j, before[i])] + Script(before[i + 1..], after[j + 1..], i + 1, j + 1)
            else if j == |after| || (i < |before|
                && Lcs(before[i + 1..], after[j..]) >= Lcs(before[i..], after[j + 1..])) then
              [Old(i, before[i])] + Script(before[i + 1..], after[j..], i + 1, j)
            else
              [New(j, after[j])] + Script(before[i..], after[j + 1..], i, j + 1)
  {
    if i < |before| {
      assert before[i..][1..] == before[i + 1..];
    }
    if j < |after| {
      assert after[j..][1..] == after[j + 1..];
    }
  }

  // What has been written, with the script of what remains, is the whole script.
  predicate Underway(lines: seq<DiffLine>, before: seq<string>, after: seq<string>, i: nat, j: nat) {
    i <= |before| && j <= |after| && lines + Script(before[i..], after[j..], i, j) == Script(before, after, 0, 0)
  }

  lemma OneLineOn(lines: seq<DiffLine>, line: DiffLine, rest: seq<DiffLine>)
    ensures lines + ([line] + rest) == (lines + [line]) + rest
  {
  }

  lemma KeptOn(lines: seq<DiffLine>, before: seq<string>, after: seq<string>, i: nat, j: nat)
    requires Underway(lines, before, after, i, j) && i < |before| && j < |after| && before[i] == after[j]
    ensures Underway(lines + [Both(i, j, before[i])], before, after, i + 1, j + 1)
  {
    ScriptAt(before, after, i, j);
    OneLineOn(lines, Both(i, j, before[i]), Script(before[i + 1..], after[j + 1..], i + 1, j + 1));
  }

  lemma RemovedOn(lines: seq<DiffLine>, before: seq<string>, after: seq<string>, i: nat, j: nat)
    requires Underway(lines, before, after, i, j) && i < |before|
    requires j < |after| ==>
               before[i] != after[j] && Lcs(before[i + 1..], after[j..]) >= Lcs(before[i..], after[j + 1..])
    ensures Underway(lines + [Old(i, before[i])], before, after, i + 1, j)
  {
    ScriptAt(before, after, i, j);
    OneLineOn(lines, Old(i, before[i]), Script(before[i + 1..], after[j..], i + 1, j));
  }

  lemma AddedOn(lines: seq<DiffLine>, before: seq<string>, after: seq<string>, i: nat, j: nat)
    requires Underway(lines, before, after, i, j) && j < |after|
    requires i < |before| ==>
               before[i] != after[j] && Lcs(before[i + 1..], after[j..]) < Lcs(before[i..], after[j + 1..])
    ensures Underway(lines + [New(j, after[j])], before, after, i, j + 1)
  {
    ScriptAt(before, after, i, j);
    OneLineOn(lines, New(j, after[j]), Script(before[i..], after[j + 1..], i, j + 1));
  }

  lemma NothingOn(before: seq<string>, after: seq<string>)
    ensures Underway([], before, after, 0, 0)
  {
    assert before[0..] == before && after[0..] == after;
  }

  lemma AllOn(lines: seq<DiffLine>, before: seq<string>, after: seq<string>)
    requires Underway(lines, before, after, |before|, |after|)
    ensures lines == Script(before, after, 0, 0)
  {
    ScriptAt(before, after, |before|, |after|);
  }

  lemma CellIs(table: array2<nat>, before: seq<string>, after: seq<string>, i: nat, j: nat)
    requires IsTable(table, before, after) && i <= |before| && j <= |after|
    ensures table[i, j] == Lcs(before[i..], after[j..])
  {
    assert RowRight(table, before, after, i, 0);
  }

  method Walk(before: seq<string>, after: seq<string>, table: array2<nat>) returns (lines: seq<DiffLine>)
    requires IsTable(table, before, after)
    ensures lines == Script(before, after, 0, 0)
  {
    lines := [];
    var i: nat, j: nat := 0, 0;
    NothingOn(before, after);
    while i < |before| && j < |after|
      invariant Underway(lines, before, after, i, j)
      decreases |before| - i + |after| - j
    {
      CellIs(table, before, after, i + 1, j);
      CellIs(table, before, after, i, j + 1);
      if before[i] == after[j] {
        KeptOn(lines, before, after, i, j);
        lines := lines + [Both(i, j, before[i])];
        i, j := i + 1, j + 1;
      } else if table[i + 1, j] >= table[i, j + 1] {
        RemovedOn(lines, before, after, i, j);
        lines := lines + [Old(i, before[i])];
        i := i + 1;
      } else {
        AddedOn(lines, before, after, i, j);
        lines := lines + [New(j, after[j])];
        j := j + 1;
      }
    }
    while i < |before|
      invariant Underway(lines, before, after, i, j) && (i < |before| ==> j == |after|)
    {
      RemovedOn(lines, before, after, i, j);
      lines := lines + [Old(i, before[i])];
      i := i + 1;
    }
    while j < |after|
      invariant Underway(lines, before, after, i, j) && i == |before|
    {
      AddedOn(lines, before, after, i, j);
      lines := lines + [New(j, after[j])];
      j := j + 1;
    }
    AllOn(lines, before, after);
  }

  // ===== Trimming =====

  const MARKER := DiffLine(Context, None, None, "⋯")

  // A change lies within `context` lines.
  predicate Near(lines: seq<DiffLine>, context: int, k: int) {
    exists c | 0 <= c < |lines| :: lines[c].kind != Context && c - context <= k <= c + context
  }

  // A line has an entry of its own: it is near, or opens a run that is not.
  predicate Shown(lines: seq<DiffLine>, context: int, k: int) {
    Near(lines, context, k) || k == 0 || Near(lines, context, k - 1)
  }

  // Which of the first n lines have an entry, in order.
  function Places(lines: seq<DiffLine>, context: int, n: nat): seq<nat> {
    if n == 0 then []
    else Places(lines, context, n - 1) + if Shown(lines, context, n - 1) then [n - 1] else []
  }

  function EntryAt(lines: seq<DiffLine>, context: int, k: nat): DiffLine
    requires k < |lines|
  {
    if Near(lines, context, k) then lines[k] else MARKER
  }

  function TrimmedTo(lines: seq<DiffLine>, context: int, n: nat): seq<DiffLine>
    requires n <= |lines|
  {
    if n == 0 then []
    else TrimmedTo(lines, context, n - 1) +
         if Shown(lines, context, n - 1) then [EntryAt(lines, context, n - 1)] else []
  }

  function Trimmed(lines: seq<DiffLine>, context: int): seq<DiffLine> {
    TrimmedTo(lines, context, |lines|)
  }

  method TrimToContext(lines: seq<DiffLine>, context: int) returns (kept: seq<DiffLine>)
    ensures kept == Trimmed(lines, context)
  {
    var near: set<int> := {};
    var index := 0;
    while index < |lines|
      invariant index <= |lines|
      invariant forall k :: k in near <==> Near(lines[..index], context, k)
    {
      var before := near;
      if lines[index].kind != Context {
        var i := index - context;
        while i <= index + context
          invariant index - context <= i && (i <= index + context + 1 || i == index - context)
          invariant forall k :: k in near <==> k in before || index - context <= k < i
          decreases index + context + 1 - i
        {
          near := near + {i};
          i := i + 1;
        }
      }
      NearGrows(lines, context, index);
      index := index + 1;
    }
    assert lines[..index] == lines;

    kept := [];
    var skipping := false;
    index := 0;
    while index < |lines|
      invariant index <= |lines| && kept == TrimmedTo(lines, context, index)
      invariant skipping <==> index > 0 && !Near(lines, context, index - 1)
    {
      if index in near {
        kept := kept + [lines[index]];
        skipping := false;
      } else if !skipping {
        kept := kept + [MARKER];
        skipping := true;
      }
      index := index + 1;
    }
  }

  lemma NearGrows(lines: seq<DiffLine>, context: int, n: nat)
    requires n < |lines|
    ensures forall k :: Near(lines[..n + 1], context, k) <==>
              Near(lines[..n], context, k) || (lines[n].kind != Context && n - context <= k <= n + context)
  {
    forall k: int
      ensures Near(lines[..n + 1], context, k) <==>
                Near(lines[..n], context, k) || (lines[n].kind != Context && n - context <= k <= n + context)
    {
      NearGrowsAt(lines, context, n, k);
    }
  }

  lemma NearGrowsAt(lines: seq<DiffLine>, context: int, n: nat, k: int)
    requires n < |lines|
    ensures Near(lines[..n + 1], context, k) <==>
              Near(lines[..n], context, k) || (lines[n].kind != Context && n - context <= k <= n + context)
  {
    var longer, shorter := lines[..n + 1], lines[..n];
    assert longer[n] == lines[n] && forall c | 0 <= c < n :: longer[c] == shorter[c];
    if Near(longer, context, k) {
      var c :| 0 <= c <= n && longer[c].kind != Context && c - context <= k <= c + context;
      assert c < n ==> shorter[c] == longer[c];
    }
    if Near(shorter, context, k) {
      var c :| 0 <= c < n && shorter[c].kind != Context && c - context <= k <= c + context;
      assert longer[c] == shorter[c];
    }
  }

  // ----- What trimming does -----

  predicate Ascending(at: seq<nat>) {
    forall x, y | 0 <= x < y < |at| :: at[x] < at[y]
  }

  lemma {:induction false} PlacesAre(lines: seq<DiffLine>, context: int, n: nat)
    requires n <= |lines|
    ensures forall k :: k in Places(lines, context, n) <==> 0 <= k < n && Shown(lines, context, k)
    ensures Ascending(Places(lines, context, n))
  {
    if n > 0 {
      PlacesAre(lines, context, n - 1);
      AscendingGrows(Places(lines, context, n - 1), n - 1);
    }
  }

  lemma AscendingGrows(at: seq<nat>, k: nat)
    requires Ascending(at) && forall x | x in at :: x < k
    ensures Ascending(at + [k])
  {
    assert forall x | 0 <= x < |at| :: at[x] in at;
  }

  lemma {:induction false} EntriesAre(lines: seq<DiffLine>, context: int, n: nat)
    requires n <= |lines|
    ensures var at, kept := Places(lines, context, n), TrimmedTo(lines, context, n);
            |kept| == |at| && forall x | 0 <= x < |at| :: at[x] < n && kept[x] == EntryAt(lines, context, at[x])
  {
    if n > 0 {
      EntriesAre(lines, context, n - 1);
    }
  }

  // What is left is the near lines, each once and in order, with one marker in
  // the place of each run of lines that are not near.
  lemma TrimKeepsTheNear(lines: seq<DiffLine>, context: int)
    ensures var at, kept := Places(lines, context, |lines|), Trimmed(lines, context);
            && |kept| == |at|
            && (forall x | 0 <= x < |at| ::
                  at[x] < |lines| && kept[x] == if Near(lines, context, at[x]) then lines[at[x]]
                                                else DiffLine(Context, None, None, "⋯"))
            && Ascending(at)
            && (forall k | 0 <= k < |lines| && Near(lines, context, k) :: k in at)
  {
    PlacesAre(lines, context, |lines|);
    EntriesAre(lines, context, |lines|);
  }

  // A maximal run of lines with no change near.
  predicate FarRun(lines: seq<DiffLine>, context: int, from: nat, until: nat) {
    && from < until <= |lines| && (forall k | from <= k < until :: !Near(lines, context, k))
    && (from > 0 ==> Near(lines, context, from - 1)) && (until < |lines| ==> Near(lines, context, until))
  }

  lemma OneMarkerPerRun(lines: seq<DiffLine>, context: int, from: nat, until: nat)
    requires FarRun(lines, context, from, until)
    ensures forall k | from <= k < until :: k in Places(lines, context, |lines|) <==> k == from
  {
    PlacesAre(lines, context, |lines|);
  }

  // Every line not near belongs to such a run, and no other marker is made.
  lemma FarLinesLieInRuns(lines: seq<DiffLine>, context: int, k: nat)
    requires k < |lines| && !Near(lines, context, k)
    ensures exists from: nat, until: nat :: FarRun(lines, context, from, until) && from <= k < until
  {
    var from: nat := k;
    while from > 0 && !Near(lines, context, from - 1)
      invariant from <= k && forall m | from <= m <= k :: !Near(lines, context, m)
    {
      from := from - 1;
    }
    var until: nat := k + 1;
    while until < |lines| && !Near(lines, context, until)
      invariant k < until <= |lines| && forall m | from <= m < until :: !Near(lines, context, m)
    {
      until := until + 1;
    }
    assert FarRun(lines, context, from, until);
  }

  // ----- The counts -----

  datatype Stat = Stat(added: nat, removed: nat)

  function DiffStat(lines: seq<DiffLine>): Stat {
    Stat(CountOf(lines, Added), CountOf(lines, Removed))
  }

  lemma {:induction false} CountAdds(left: seq<DiffLine>, right: seq<DiffLine>, kind: Kind)
    ensures CountOf(left + right, kind) == CountOf(left, kind) + CountOf(right, kind)
  {
    if left == [] {
      assert left + right == right;
    } else {
      assert (left + right)[1..] == left[1..] + right;
      CountAdds(left[1..], right, kind);
    }
  }

  lemma {:induction false} TrimmedCounts(lines: seq<DiffLine>, context: int, kind: Kind, n: nat)
    requires n <= |lines| && kind != Context
    ensures CountOf(TrimmedTo(lines, context, n), kind) == if context >= 0 then CountOf(lines[..n], kind) else 0
  {
    if n > 0 {
      TrimmedCounts(lines, context, kind, n - 1);
      var entry := if Shown(lines, context, n - 1) then [EntryAt(lines, context, n - 1)] else [];
      assert lines[..n] == lines[..n - 1] + [lines[n - 1]];
      CountAdds(TrimmedTo(lines, context, n - 1), entry, kind);
      CountAdds(lines[..n - 1], [lines[n - 1]], kind);
      assert lines[n - 1].kind != Context && context >= 0 ==> Near(lines, context, n - 1);
      assert context < 0 ==> !Near(lines, context, n - 1);
    }
  }

  // Trimming leaves the counts as they were, unless asked for less than no context.
  lemma TrimKeepsStat(lines: seq<DiffLine>, context: int)
    ensures DiffStat(Trimmed(lines, context)) == DiffStat(lines) <==> context >= 0 || DiffStat(lines) == Stat(0, 0)
  {
    TrimmedCounts(lines, context, Added, |lines|);
    TrimmedCounts(lines, context, Removed, |lines|);
    assert lines[..|lines|] == lines;
  }

  // ===== Texts =====

  function SplitLines(text: string): (lines: seq<string>)
    ensures lines != []
  {
    if text == "" then [""]
    else
      var rest := SplitLines(text[1..]);
      if text[0] == '\n' then [""] + rest else [[text[0]] + rest[0]] + rest[1..]
  }

  function JoinLines(lines: seq<string>): string {
    if lines == [] then "" else if |lines| == 1 then lines[0] else lines[0] + "\n" + JoinLines(lines[1..])
  }

  function LinesOf(text: string): seq<string> {
    if text == "" then [] else SplitLines(text)
  }

  lemma {:induction false} JoinSplit(text: string)
    ensures JoinLines(SplitLines(text)) == text
    ensures forall line | line in SplitLines(text) :: '\n' !in line
  {
    if text != "" {
      JoinSplit(text[1..]);
      var rest := SplitLines(text[1..]);
      if text[0] == '\n' {
        assert ([""] + rest)[1..] == rest;
        assert text == "\n" + text[1..];
      } else {
        var lines := [[text[0]] + rest[0]] + rest[1..];
        assert lines[1..] == rest[1..];
        assert JoinLines(lines) == [text[0]] + JoinLines(rest);
        assert rest[0] in rest && forall line | line in rest[1..] :: line in rest;
      }
    }
  }

  method DiffLines(oldText: string, newText: string, context: int) returns (lines: seq<DiffLine>)
    ensures lines == Trimmed(Script(LinesOf(oldText), LinesOf(newText), 0, 0), context)
  {
    var before, after := LinesOf(oldText), LinesOf(newText);
    var table := Table(before, after);
    var walked := Walk(before, after, table);
    lines := TrimToContext(walked, context);
  }

  // Read down either side, the full script spells the text it came from.
  lemma ScriptSpellsBothTexts(oldText: string, newText: string)
    ensures var lines := Script(LinesOf(oldText), LinesOf(newText), 0, 0);
            JoinLines(OldSide(lines)) == oldText && JoinLines(NewSide(lines)) == newText
  {
    ScriptTurns(LinesOf(oldText), LinesOf(newText), 0, 0);
    JoinSplit(oldText);
    JoinSplit(newText);
  }

  // The counts beside a diff are the smallest any diff of the two texts could
  // have, and are both zero only when the texts are the same.
  lemma StatIsMinimal(oldText: string, newText: string, context: nat, other: seq<DiffLine>)
    requires Turns(other, LinesOf(oldText), LinesOf(newText), 0, 0)
    ensures var stat := DiffStat(Trimmed(Script(LinesOf(oldText), LinesOf(newText), 0, 0), context));
            && stat.added <= DiffStat(other).added && stat.removed <= DiffStat(other).removed
            && (stat == Stat(0, 0) <==> oldText == newText)
  {
    var before, after := LinesOf(oldText), LinesOf(newText);
    var lines := Script(before, after, 0, 0);
    TrimKeepsStat(lines, context);
    ScriptTurns(before, after, 0, 0);
    ScriptShares(before, after, 0, 0);
    SidesCount(lines);
    SidesCount(other);
    SharesBounds(other, before, after, 0, 0);
    if DiffStat(lines) == Stat(0, 0) {
      UnchangedSides(lines);
      ScriptSpellsBothTexts(oldText, newText);
    }
    if oldText == newText {
      LcsOfSame(before);
    }
  }

  lemma {:induction false} UnchangedSides(lines: seq<DiffLine>)
    requires DiffStat(lines) == Stat(0, 0)
    ensures OldSide(lines) == NewSide(lines)
  {
    if lines != [] {
      UnchangedSides(lines[1..]);
    }
  }

  lemma {:induction false} LcsOfSame(lines: seq<string>)
    ensures Lcs(lines, lines) == |lines|
  {
    if lines != [] {
      LcsOfSame(lines[1..]);
    }
  }

  lemma {:induction false} NothingIsNear(lines: seq<DiffLine>, context: int, n: nat)
    requires context < 0 && n <= |lines|
    ensures TrimmedTo(lines, context, n) == if n == 0 then [] else [MARKER]
  {
    if n > 0 {
      NothingIsNear(lines, context, n - 1);
    }
  }

  // Asked for less than no context, the diff of any two texts that differ is one
  // marker, which shows and counts none of what changed.
  lemma NegativeContextHidesAll(oldText: string, newText: string, context: int)
    requires context < 0 && oldText != newText
    ensures var full := Script(LinesOf(oldText), LinesOf(newText), 0, 0);
            && Trimmed(full, context) == [MARKER]
            && DiffStat(Trimmed(full, context)) == Stat(0, 0) && DiffStat(full) != Stat(0, 0)
  {
    var full := Script(LinesOf(oldText), LinesOf(newText), 0, 0);
    NothingIsNear(full, context, |full|);
    ScriptSpellsBothTexts(oldText, newText);
    if DiffStat(full) == Stat(0, 0) {
      UnchangedSides(full);
    }
    assert full != [];
    TrimmedCounts(full, context, Added, |full|);
    TrimmedCounts(full, context, Removed, |full|);
  }
}
