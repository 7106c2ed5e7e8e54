/** The tiling as the code runs it, proved to return exactly what `Tiling.Tiling` defines. */
module GreedyTiling {
  import opened Tiling

  /** The positions below n that hold token t, ascending. */
  function Positions(tokens: seq<Token>, t: Token, n: nat): (ps: seq<nat>)
    requires n <= |tokens|
    ensures forall k :: 0 <= k < |ps| ==> ps[k] < n && tokens[ps[k]] == t
  {
    if n == 0 then []
    else Positions(tokens, t, n - 1) + if tokens[n - 1] == t then [n - 1] else []
  }

  lemma {:induction false} PositionsAreAll(tokens: seq<Token>, t: Token, n: nat)
    requires n <= |tokens|
    ensures var ps := Positions(tokens, t, n);
            && (forall j :: 0 <= j < n && tokens[j] == t ==> j in ps)
            && (forall p, q :: 0 <= p < q < |ps| ==> ps[p] < ps[q])
  {
    if n > 0 {
      PositionsAreAll(tokens, t, n - 1);
      var ps, init := Positions(tokens, t, n), Positions(tokens, t, n - 1);
      forall j | 0 <= j < n && tokens[j] == t ensures j in ps {
        assert j == n - 1 || j in init;
      }
    }
  }

  /** Where the walk over an index list stands after p entries. */
  function After(ps: seq<nat>, p: nat): nat
    requires p <= |ps|
  {
    if p == 0 then 0 else ps[p - 1] + 1
  }

  /** The index skips no occurrence: between two neighbouring entries, and after the last, the token does not occur. */
  lemma PositionsSkipNothing(tokens: seq<Token>, t: Token, p: nat, j: nat)
    requires p <= |Positions(tokens, t, |tokens|)|
    requires var ps := Positions(tokens, t, |tokens|); After(ps, p) <= j < (if p < |ps| then ps[p] else |tokens|)
    ensures tokens[j] != t
  {
    PositionsAreAll(tokens, t, |tokens|);
    var ps := Positions(tokens, t, |tokens|);
    if tokens[j] == t {
      var q :| 0 <= q < |ps| && ps[q] == j;
      assert false;
    }
  }

  /** A map read as Go reads it: a missing key holds the empty list. */
  function Lookup(positions: map<Token, seq<nat>>, t: Token): seq<nat> {
    if t in positions then positions[t] else []
  }

  /** The index of the first j positions. */
  ghost predicate Indexes(positions: map<Token, seq<nat>>, b: seq<Token>, j: nat)
    requires j <= |b|
  {
    forall t: Token :: t != SEPARATOR ==> Lookup(positions, t) == Positions(b, t, j)
  }

  function Indexed(positions: map<Token, seq<nat>>, b: seq<Token>, j: nat): map<Token, seq<nat>>
    requires j < |b|
  {
    if b[j] == SEPARATOR then positions else positions[b[j] := Lookup(positions, b[j]) + [j]]
  }

  lemma IndexGrows(positions: map<Token, seq<nat>>, b: seq<Token>, j: nat)
    requires j < |b| && Indexes(positions, b, j)
    ensures Indexes(Indexed(positions, b, j), b, j + 1)
  {
    var after := Indexed(positions, b, j);
    forall t: Token | t != SEPARATOR ensures Lookup(after, t) == Positions(b, t, j + 1) {
      if t != b[j] {
        assert Lookup(after, t) == Lookup(positions, t);
      }
    }
  }

  method IndexPositions(b: seq<Token>) returns (positions: map<Token, seq<nat>>)
    ensures Indexes(positions, b, |b|)
  {
    positions := map[];
    for j := 0 to |b|
      invariant Indexes(positions, b, j)
    {
      IndexGrows(positions, b, j);
      positions := Indexed(positions, b, j);
    }
  }

  /** The board that two mark arrays stand for. */
  ghost function BoardOf(a: seq<Token>, b: seq<Token>, markedA: array<bool>, markedB: array<bool>): Board
    reads markedA, markedB
  {
    Board(a, b, markedA[..], markedB[..])
  }

  /** Columns in [from, to) without a run of this length add nothing to the row. */
  lemma {:induction false} RowSkips(board: Board, length: nat, i: nat, from: nat, to: nat)
    requires board.Valid() && from <= to
    requires forall j: nat :: from <= j < to ==> board.RunLength(i, j) != length
    ensures board.RowRuns(length, i, to) == board.RowRuns(length, i, from)
  {
    if from < to {
      RowSkips(board, length, i, from, to - 1);
    }
  }

  lemma {:induction false} RunsSkip(board: Board, length: nat, from: nat, to: nat)
    requires board.Valid() && from <= to
    requires forall i: nat, j: nat :: from <= i < to && 0 <= j < |board.b| ==> board.RunLength(i, j) != length
    ensures board.Runs(length, to) == board.Runs(length, from)
  {
    if from < to {
      RunsSkip(board, length, from, to - 1);
      EmptyRow(board, length, to - 1);
      assert board.Runs(length, to - 1) + [] == board.Runs(length, to - 1);
    }
  }

  lemma EmptyRow(board: Board, length: nat, i: nat)
    requires board.Valid()
    requires forall j: nat :: j < |board.b| ==> board.RunLength(i, j) != length
    ensures board.RowRuns(length, i, |board.b|) == []
  {
    RowSkips(board, length, i, 0, |board.b|);
  }

  /** Everything the scan has looked at before row i, column j. */
  ghost predicate Seen(i: nat, j: nat, x: nat, y: nat) {
    x < i || (x == i && y < j)
  }

  /** The scan's state before row i, column j: `found` lists all runs of length maxLen so far and none is longer. */
  ghost predicate Scanned(board: Board, minMatch: nat, i: nat, j: nat, maxLen: nat, found: seq<Tile>)
    requires board.Valid()
  {
    && maxLen >= minMatch && j <= |board.b|
    && found == board.Runs(maxLen, i) + board.RowRuns(maxLen, i, j)
    && (forall x: nat, y: nat :: Seen(i, j, x, y) && y < |board.b| ==> board.RunLength(x, y) <= maxLen)
    && (maxLen > minMatch ==> found != [])
  }

  /** Passing over cells that hold no run keeps the scan's state. */
  lemma ScanSkips(board: Board, minMatch: nat, i: nat, from: nat, to: nat, maxLen: nat, found: seq<Tile>)
    requires board.Valid() && minMatch > 0 && Scanned(board, minMatch, i, from, maxLen, found)
    requires from <= to <= |board.b|
    requires forall j: nat :: from <= j < to ==> board.RunLength(i, j) == 0
    ensures Scanned(board, minMatch, i, to, maxLen, found)
  {
    RowSkips(board, maxLen, i, from, to);
    forall x: nat, y: nat | Seen(i, to, x, y) && y < |board.b| ensures board.RunLength(x, y) <= maxLen {
      if !Seen(i, from, x, y) {
        assert from <= y < to;
      }
    }
  }

  /** From one index entry to the next there is no run to find. */
  lemma SkipToEntry(board: Board, minMatch: nat, i: nat, p: nat, maxLen: nat, found: seq<Tile>)
    requires board.Valid() && minMatch > 0 && i < |board.a|
    requires p <= |Positions(board.b, board.a[i], |board.b|)|
    requires Scanned(board, minMatch, i, After(Positions(board.b, board.a[i], |board.b|), p), maxLen, found)
    ensures var ps := Positions(board.b, board.a[i], |board.b|);
            Scanned(board, minMatch, i, if p < |ps| then ps[p] else |board.b|, maxLen, found)
  {
    var ps := Positions(board.b, board.a[i], |board.b|);
    PositionsAreAll(board.b, board.a[i], |board.b|);
    var to := if p < |ps| then ps[p] else |board.b|;
    forall j: nat | After(ps, p) <= j < to ensures board.RunLength(i, j) == 0 {
      PositionsSkipNothing(board.b, board.a[i], p, j);
    }
    ScanSkips(board, minMatch, i, After(ps, p), to, maxLen, found);
  }

  lemma ScanNextRow(board: Board, minMatch: nat, i: nat, maxLen: nat, found: seq<Tile>)
    requires board.Valid() && Scanned(board, minMatch, i, |board.b|, maxLen, found)
    ensures Scanned(board, minMatch, i + 1, 0, maxLen, found)
  {
    assert found == board.Runs(maxLen, i + 1) + board.RowRuns(maxLen, i + 1, 0);
    forall x: nat, y: nat | Seen(i + 1, 0, x, y) && y < |board.b| ensures board.RunLength(x, y) <= maxLen {
      assert Seen(i, |board.b|, x, y);
    }
  }

  /** One cell: keep it, drop it, or restart the list because it is longer. */
  lemma ScanCell(board: Board, minMatch: nat, i: nat, j: nat, maxLen: nat, found: seq<Tile>)
    requires board.Valid() && minMatch > 0 && j < |board.b| && Scanned(board, minMatch, i, j, maxLen, found)
    ensures var k := board.RunLength(i, j);
            && (k > maxLen ==> Scanned(board, minMatch, i, j + 1, k, [Tile(i, j, k)]))
            && (k == maxLen ==> Scanned(board, minMatch, i, j + 1, maxLen, found + [Tile(i, j, k)]))
            && (k < maxLen ==> Scanned(board, minMatch, i, j + 1, maxLen, found))
  {
    var k := board.RunLength(i, j);
    var longest := Max(k, maxLen);
    forall x: nat, y: nat | Seen(i, j + 1, x, y) && y < |board.b| ensures board.RunLength(x, y) <= longest {
      assert Seen(i, j, x, y) || (x == i && y == j);
    }
    if k > maxLen {
      forall x: nat, y: nat | 0 <= x < i && 0 <= y < |board.b| ensures board.RunLength(x, y) != k {
        assert Seen(i, j, x, y);
      }
      RunsSkip(board, k, 0, i);
      forall y: nat | 0 <= y < j ensures board.RunLength(i, y) != k {
        assert Seen(i, j, i, y);
      }
      RowSkips(board, k, i, 0, j);
    }
  }

  /** Once the remaining rows are too short for maxLen, the scan is complete. */
  lemma ScanEnds(board: Board, minMatch: nat, i: nat, maxLen: nat, found: seq<Tile>)
    requires board.Valid() && minMatch > 0 && Scanned(board, minMatch, i, 0, maxLen, found)
    requires i <= |board.a| < i + maxLen
    ensures found == board.Candidates(minMatch)
  {
    RunsSkip(board, maxLen, i, |board.a|);
    RunsAre(board, maxLen, |board.a|);
    if board.Longest() > 0 {
      var x, y := LongestReached(board, |board.a|);
      if x < i {
        assert Seen(i, 0, x, y);
      }
    }
    if found != [] {
      var t := found[0];
      assert t in board.Runs(maxLen, |board.a|);
      LongestBounds(board, t.a, t.b);
    }
  }

  /** fingerprint.go, lines 221-234: one entry of the index. */
  method ScanEntry(a: seq<Token>, b: seq<Token>, markedA: array<bool>, markedB: array<bool>,
                   ghost minMatch: nat, i: nat, j: nat, maxSoFar: nat, foundSoFar: seq<Tile>) returns (maxLen: nat, found: seq<Tile>)
    requires markedA.Length == |a| && markedB.Length == |b| && minMatch > 0
    requires i < |a| && j < |b|
    requires Scanned(BoardOf(a, b, markedA, markedB), minMatch, i, j, maxSoFar, foundSoFar)
    ensures Scanned(BoardOf(a, b, markedA, markedB), minMatch, i, j + 1, maxLen, found)
  {
    maxLen, found := maxSoFar, foundSoFar;
    ScanCell(BoardOf(a, b, markedA, markedB), minMatch, i, j, maxLen, found);
    if !markedB[j] {
      var k := MeasureRun(a, b, markedA, markedB, i, j);
      if k > maxLen {
        maxLen := k;
        found := [];
      }
      if k == maxLen {
        found := found + [Tile(i, j, k)];
      }
    }
  }

  /** fingerprint.go, lines 220-235: one row, visiting only the positions that hold the row's token. */
  method ScanRow(a: seq<Token>, b: seq<Token>, columns: seq<nat>, markedA: array<bool>, markedB: array<bool>,
                 ghost minMatch: nat, i: nat, maxSoFar: nat, foundSoFar: seq<Tile>) returns (maxLen: nat, found: seq<Tile>)
    requires markedA.Length == |a| && markedB.Length == |b| && minMatch > 0
    requires i < |a| && columns == Positions(b, a[i], |b|)
    requires Scanned(BoardOf(a, b, markedA, markedB), minMatch, i, 0, maxSoFar, foundSoFar)
    ensures Scanned(BoardOf(a, b, markedA, markedB), minMatch, i, |b|, maxLen, found)
  {
    hide Scanned;
    ghost var board := BoardOf(a, b, markedA, markedB);
    maxLen, found := maxSoFar, foundSoFar;
    for p := 0 to |columns|
      invariant Scanned(board, minMatch, i, After(columns, p), maxLen, found)
    {
      SkipToEntry(board, minMatch, i, p, maxLen, found);
      maxLen, found := ScanEntry(a, b, markedA, markedB, minMatch, i, columns[p], maxLen, found);
    }
    SkipToEntry(board, minMatch, i, |columns|, maxLen, found);
  }

  /** fingerprint.go, lines 213-236: the longest common unmarked runs of at least minMatch tokens. */
  method FindLongestRuns(a: seq<Token>, b: seq<Token>, positions: map<Token, seq<nat>>,
                         markedA: array<bool>, markedB: array<bool>, minMatch: nat) returns (found: seq<Tile>)
    requires markedA.Length == |a| && markedB.Length == |b| && minMatch > 0
    requires Indexes(positions, b, |b|)
    ensures found == BoardOf(a, b, markedA, markedB).Candidates(minMatch)
  {
    ghost var board := BoardOf(a, b, markedA, markedB);
    var maxLen: nat := minMatch;
    found := [];
    var i: nat := 0;
    while i + maxLen <= |a|
      invariant 0 <= i <= |a|
      invariant Scanned(board, minMatch, i, 0, maxLen, found)
      decreases |a| - i
    {
      if markedA[i] || a[i] == SEPARATOR {
        ScanSkips(board, minMatch, i, 0, |b|, maxLen, found);
      } else {
        maxLen, found := ScanRow(a, b, Lookup(positions, a[i]), markedA, markedB, minMatch, i, maxLen, found);
      }
      ScanNextRow(board, minMatch, i, maxLen, found);
      i := i + 1;
    }
    ScanEnds(board, minMatch, i, maxLen, found);
  }

  method MeasureRun(a: seq<Token>, b: seq<Token>, markedA: array<bool>, markedB: array<bool>, i: nat, j: nat)
    returns (k: nat)
    requires markedA.Length == |a| && markedB.Length == |b|
    ensures k == BoardOf(a, b, markedA, markedB).RunLength(i, j)
  {
    k := 0;
    ghost var board := BoardOf(a, b, markedA, markedB);
    while i + k < |a| && j + k < |b| && a[i + k] != SEPARATOR && a[i + k] == b[j + k] && !markedA[i + k] && !markedB[j + k]
      invariant board.RunLength(i, j) == k + board.RunLength(i + k, j + k)
      decreases |a| - k
    {
      k := k + 1;
    }
  }

  method IsMarked(marked: array<bool>, start: nat, length: nat) returns (r: bool)
    requires start + length <= marked.Length
    ensures r == AnyMarked(marked[..], start, length)
  {
    for k := start to start + length
      invariant forall p :: start <= p < k ==> !marked[p]
    {
      if marked[k] {
        assert marked[..][k];
        return true;
      }
    }
    return false;
  }

  method MarkRange(marked: array<bool>, start: nat, length: nat)
    requires start + length <= marked.Length
    modifies marked
    ensures marked[..] == Mark(old(marked[..]), start, length)
  {
    for k := 0 to length
      invariant marked[..] == Mark(old(marked[..]), start, k)
    {
      marked[start + k] := true;
    }
  }

  /** fingerprint.go, lines 240-249: place every candidate that is still free, in order. */
  method PlaceCandidates(a: seq<Token>, b: seq<Token>, markedA: array<bool>, markedB: array<bool>,
                         found: seq<Tile>, tiles: seq<Tile>) returns (r: seq<Tile>)
    requires markedA.Length == |a| && markedB.Length == |b| && markedA != markedB
    requires AllFit(BoardOf(a, b, markedA, markedB), found)
    modifies markedA, markedB
    ensures var before := State(old(BoardOf(a, b, markedA, markedB)), tiles);
            State(BoardOf(a, b, markedA, markedB), r) == PlaceFirst(before, found, |found|)
  {
    ghost var before := State(BoardOf(a, b, markedA, markedB), tiles);
    r := tiles;
    for n := 0 to |found|
      invariant State(BoardOf(a, b, markedA, markedB), r) == PlaceFirst(before, found, n)
    {
      var f := found[n];
      assert before.board.Fits(f);
      var takenA := IsMarked(markedA, f.a, f.length);
      var takenB := IsMarked(markedB, f.b, f.length);
      if !takenA && !takenB {
        MarkRange(markedA, f.a, f.length);
        MarkRange(markedB, f.b, f.length);
        r := r + [f];
      }
    }
  }

  /** The whole algorithm.  Its unbounded outer loop ends because the longest free run gets shorter every round. */
  method GreedyStringTiling(a: seq<Token>, b: seq<Token>, minMatch: int) returns (tiles: seq<Tile>)
    ensures tiles == Tiling.Tiling(a, b, minMatch)
  {
    var least := if minMatch < 1 then 1 else minMatch;
    var positions := IndexPositions(b);
    var markedA := new bool[|a|](_ => false);
    var markedB := new bool[|b|](_ => false);
    tiles := [];
    assert State(BoardOf(a, b, markedA, markedB), tiles) == Start(a, b);
    while true
      invariant fresh(markedA) && fresh(markedB) && markedA != markedB
      invariant markedA.Length == |a| && markedB.Length == |b|
      invariant Rounds(State(BoardOf(a, b, markedA, markedB), tiles), least) == Rounds(Start(a, b), least)
      decreases BoardOf(a, b, markedA, markedB).Longest()
    {
      ghost var before := State(BoardOf(a, b, markedA, markedB), tiles);
      CandidatesAre(before.board, least);
      var found := FindLongestRuns(a, b, positions, markedA, markedB, least);
      if found == [] {
        break;
      }
      RoundDescends(before, least);
      tiles := PlaceCandidates(a, b, markedA, markedB, found, tiles);
      assert State(BoardOf(a, b, markedA, markedB), tiles) == Round(before, least);
    }
    tiles := SortByStart(tiles);
  }
}
