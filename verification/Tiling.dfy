/** Greedy string tiling. */
module Tiling {
  /* `Board` holds two token streams and their marks.  `Tiling` is the plain definition of the algorithm: every round
     looks at every pair of positions, takes all longest common unmarked runs in scan order and places each one that is
     still free.  `GreedyStringTiling` is the code: a position index for one side, a scan bound that shrinks while the
     scan runs, and a candidate list that is thrown away when a longer run turns up. */

  type Token = nat

  const SEPARATOR: Token := 0

  datatype Tile = Tile(a: nat, b: nat, length: nat)

  // ---------------------------------------------------------------- marks

  predicate AnyMarked(marks: seq<bool>, start: nat, length: nat)
    requires start + length <= |marks|
  {
    exists k :: start <= k < start + length && marks[k]
  }

  function Mark(marks: seq<bool>, start: nat, length: nat): seq<bool> {
    seq(|marks|, k requires 0 <= k < |marks| => marks[k] || start <= k < start + length)
  }

  function CountMarked(marks: seq<bool>): nat {
    if marks == [] then 0 else CountMarked(marks[..|marks| - 1]) + if marks[|marks| - 1] then 1 else 0
  }

  /** Marking a free range adds exactly its length. */
  lemma {:induction false} CountAfterMark(marks: seq<bool>, start: nat, length: nat)
    requires start + length <= |marks|
    requires !AnyMarked(marks, start, length)
    ensures CountMarked(Mark(marks, start, length)) == CountMarked(marks) + length
  {
    var n := |marks|;
    var marked := Mark(marks, start, length);
    if n == 0 {
    } else if length == 0 {
      assert marked == marks;
    } else {
      var init := marks[..n - 1];
      var last := if start + length == n then 1 else 0;
      assert forall k :: start <= k < start + length - last ==> init[k] == marks[k];
      CountAfterMark(init, start, length - last);
      assert marked[..n - 1] == Mark(init, start, length - last);
      if last == 1 {
        assert !marks[n - 1];
      }
    }
  }

  lemma {:induction false} CountMonotone(marks: seq<bool>, bound: seq<bool>)
    requires |marks| == |bound|
    requires forall k :: 0 <= k < |marks| && marks[k] ==> bound[k]
    ensures CountMarked(marks) <= CountMarked(bound)
    ensures CountMarked(marks) == CountMarked(bound) ==> marks == bound
  {
    var n := |marks|;
    if n > 0 {
      var init, ceiling := marks[..n - 1], bound[..n - 1];
      CountMonotone(init, ceiling);
      assert marks == init + [marks[n - 1]] && bound == ceiling + [bound[n - 1]];
    }
  }

  lemma {:induction false} CountBound(marks: seq<bool>)
    ensures CountMarked(marks) <= |marks|
  {
    if marks != [] {
      CountBound(marks[..|marks| - 1]);
    }
  }

  /** Which tokens are not separators. */
  function Matchable(tokens: seq<Token>): seq<bool> {
    seq(|tokens|, k requires 0 <= k < |tokens| => tokens[k] != SEPARATOR)
  }

  /** The number of tokens that are not separators. */
  function CountTokens(tokens: seq<Token>): nat {
    CountMarked(Matchable(tokens))
  }

  function TiledTokens(tiles: seq<Tile>): nat {
    if tiles == [] then 0 else TiledTokens(tiles[..|tiles| - 1]) + tiles[|tiles| - 1].length
  }

  // ---------------------------------------------------------------- the board

  datatype Board = Board(a: seq<Token>, b: seq<Token>, markedA: seq<bool>, markedB: seq<bool>) {

    predicate Valid() {
      |markedA| == |a| && |markedB| == |b|
    }

    /** Positions i and j hold the same non-separator token and both are still free. */
    predicate Match(i: nat, j: nat)
      requires Valid()
    {
      i < |a| && j < |b| && a[i] != SEPARATOR && a[i] == b[j] && !markedA[i] && !markedB[j]
    }

    /** The length of the longest common unmarked run that starts at (i, j). */
    function RunLength(i: nat, j: nat): (n: nat)
      requires Valid()
      ensures n > 0 ==> i + n <= |a| && j + n <= |b|
      decreases |a| - i
    {
      if Match(i, j) then 1 + RunLength(i + 1, j + 1) else 0
    }

    /** n equal non-separator tokens from i on one side and from j on the other, none of them marked. */
    predicate FreeRun(i: nat, j: nat, n: nat)
      requires Valid()
    {
      && i + n <= |a| && j + n <= |b|
      && (forall p :: i <= p < i + n ==> a[p] != SEPARATOR && a[p] == b[p - i + j] && !markedA[p])
      && (forall q :: j <= q < j + n ==> !markedB[q])
    }

    /** All runs of exactly this length at row i and a column below j, in column order. */
    function RowRuns(length: nat, i: nat, j: nat): seq<Tile>
      requires Valid()
    {
      if j == 0 then []
      else RowRuns(length, i, j - 1) + if RunLength(i, j - 1) == length then [Tile(i, j - 1, length)] else []
    }

    /** All runs of exactly this length that start at a row below i, in scan order. */
    function Runs(length: nat, i: nat): seq<Tile>
      requires Valid()
    {
      if i == 0 then [] else Runs(length, i - 1) + RowRuns(length, i - 1, |b|)
    }

    function LongestInRow(i: nat, j: nat): nat
      requires Valid()
    {
      if j == 0 then 0 else Max(LongestInRow(i, j - 1), RunLength(i, j - 1))
    }

    function LongestBelow(i: nat): nat
      requires Valid()
    {
      if i == 0 then 0 else Max(LongestBelow(i - 1), LongestInRow(i - 1, |b|))
    }

    /** The length of the longest common unmarked run anywhere, found by brute force. */
    function Longest(): nat
      requires Valid()
    {
      LongestBelow(|a|)
    }

    /** What one round works on: every longest run, provided it reaches minMatch. */
    function Candidates(minMatch: nat): seq<Tile>
      requires Valid()
    {
      if Longest() < minMatch then [] else Runs(Longest(), |a|)
    }

    predicate Fits(t: Tile) {
      t.a + t.length <= |a| && t.b + t.length <= |b|
    }

    predicate Blocked(t: Tile)
      requires Valid() && Fits(t)
    {
      AnyMarked(markedA, t.a, t.length) || AnyMarked(markedB, t.b, t.length)
    }

    function Place(t: Tile): (board: Board)
      requires Valid()
      ensures board.Valid()
    {
      this.(markedA := Mark(markedA, t.a, t.length), markedB := Mark(markedB, t.b, t.length))
    }
  }

  function Max(x: nat, y: nat): nat {
    if x < y then y else x
  }

  /** A common run: equal non-separator tokens all along the tile. */
  predicate IsCommonRun(a: seq<Token>, b: seq<Token>, t: Tile) {
    && t.a + t.length <= |a| && t.b + t.length <= |b|
    && forall p :: t.a <= p < t.a + t.length ==> a[p] != SEPARATOR && a[p] == b[p - t.a + t.b]
  }

  // ---------------------------------------------------------------- rounds

  datatype State = State(board: Board, tiles: seq<Tile>)

  predicate AllFit(board: Board, found: seq<Tile>) {
    forall k :: 0 <= k < |found| ==> board.Fits(found[k])
  }

  /** The first n candidates handled in order: each one still free is placed. */
  function PlaceFirst(s: State, found: seq<Tile>, n: nat): (r: State)
    requires s.board.Valid() && AllFit(s.board, found) && n <= |found|
    ensures r.board.Valid() && r.board.a == s.board.a && r.board.b == s.board.b
  {
    if n == 0 then s
    else
      var before := PlaceFirst(s, found, n - 1);
      var t := found[n - 1];
      if before.board.Blocked(t) then before
      else State(before.board.Place(t), before.tiles + [t])
  }

  lemma {:induction false} RowRunsAre(board: Board, length: nat, i: nat, j: nat)
    requires board.Valid() && length > 0
    ensures forall t :: t in board.RowRuns(length, i, j) <==> t.a == i && t.b < j && t.length == length && board.RunLength(i, t.b) == length
  {
    if j > 0 {
      RowRunsAre(board, length, i, j - 1);
    }
  }

  /** Nothing is missed and nothing is invented: the scan lists exactly the runs of the given length. */
  lemma {:induction false} RunsAre(board: Board, length: nat, i: nat)
    requires board.Valid() && length > 0
    ensures forall t :: t in board.Runs(length, i) <==>
                        t.a < i && t.b < |board.b| && t.length == length && board.RunLength(t.a, t.b) == length
    ensures AllFit(board, board.Runs(length, i))
  {
    if i > 0 {
      RunsAre(board, length, i - 1);
      RowRunsAre(board, length, i - 1, |board.b|);
    }
    forall k | 0 <= k < |board.Runs(length, i)| ensures board.Fits(board.Runs(length, i)[k]) {
      assert board.Runs(length, i)[k] in board.Runs(length, i);
    }
  }

  lemma {:induction false} LongestInRowBounds(board: Board, i: nat, j: nat, y: nat)
    requires board.Valid() && y < j
    ensures board.RunLength(i, y) <= board.LongestInRow(i, j)
  {
    if y < j - 1 {
      LongestInRowBounds(board, i, j - 1, y);
    }
  }

  lemma {:induction false} LongestBelowBounds(board: Board, i: nat, x: nat, y: nat)
    requires board.Valid() && x < i && y < |board.b|
    ensures board.RunLength(x, y) <= board.LongestBelow(i)
  {
    if x < i - 1 {
      LongestBelowBounds(board, i - 1, x, y);
    } else {
      LongestInRowBounds(board, x, |board.b|, y);
    }
  }

  lemma LongestBounds(board: Board, x: nat, y: nat)
    requires board.Valid()
    ensures board.RunLength(x, y) <= board.Longest()
  {
    if board.Match(x, y) {
      LongestBelowBounds(board, |board.a|, x, y);
    }
  }

  lemma {:induction false} LongestInRowReached(board: Board, i: nat, j: nat) returns (y: nat)
    requires board.Valid() && board.LongestInRow(i, j) > 0
    ensures y < j && board.RunLength(i, y) == board.LongestInRow(i, j)
  {
    if board.LongestInRow(i, j) == board.RunLength(i, j - 1) {
      y := j - 1;
    } else {
      y := LongestInRowReached(board, i, j - 1);
    }
  }

  lemma {:induction false} LongestReached(board: Board, i: nat) returns (x: nat, y: nat)
    requires board.Valid() && board.LongestBelow(i) > 0
    ensures x < i && y < |board.b| && board.RunLength(x, y) == board.LongestBelow(i)
  {
    if board.LongestBelow(i) == board.LongestInRow(i - 1, |board.b|) {
      x := i - 1;
      y := LongestInRowReached(board, i - 1, |board.b|);
    } else {
      x, y := LongestReached(board, i - 1);
    }
  }

  /** A round has candidates exactly when some free common run reaches minMatch. */
  lemma CandidatesAre(board: Board, minMatch: nat)
    requires board.Valid() && minMatch > 0
    ensures forall t :: t in board.Candidates(minMatch) <==>
                        t.length >= minMatch && t.length == board.Longest() == board.RunLength(t.a, t.b)
    ensures AllFit(board, board.Candidates(minMatch))
    ensures board.Candidates(minMatch) == [] <==> board.Longest() < minMatch
  {
    var longest := board.Longest();
    if longest >= minMatch {
      RunsAre(board, longest, |board.a|);
      var x, y := LongestReached(board, |board.a|);
      assert Tile(x, y, longest) in board.Candidates(minMatch);
    }
  }

  /** A run of length n is free and common at (i, j): the same thing RunLength measures, stated position by position. */
  lemma {:induction false} RunLengthMeasures(board: Board, i: nat, j: nat, n: nat)
    requires board.Valid() && i <= |board.a| && j <= |board.b|
    ensures board.RunLength(i, j) >= n <==> board.FreeRun(i, j, n)
    decreases n
  {
    if n > 0 && board.Match(i, j) {
      RunLengthMeasures(board, i + 1, j + 1, n - 1);
    }
  }

  /** Marks only grow. */
  ghost predicate Grows(before: Board, after: Board) {
    && before.Valid() && after.Valid() && before.a == after.a && before.b == after.b
    && (forall k :: 0 <= k < |before.a| && before.markedA[k] ==> after.markedA[k])
    && (forall k :: 0 <= k < |before.b| && before.markedB[k] ==> after.markedB[k])
  }

  lemma {:induction false} PlaceFirstGrows(s: State, found: seq<Tile>, m: nat, n: nat)
    requires s.board.Valid() && AllFit(s.board, found) && m <= n <= |found|
    ensures Grows(PlaceFirst(s, found, m).board, PlaceFirst(s, found, n).board)
  {
    if m < n {
      PlaceFirstGrows(s, found, m, n - 1);
    }
  }

  /** After a pass every candidate is blocked: it was placed, or something already overlapped it. */
  lemma {:induction false} HandledIsBlocked(s: State, found: seq<Tile>, k: nat, n: nat)
    requires s.board.Valid() && AllFit(s.board, found) && k < n <= |found| && found[k].length > 0
    ensures PlaceFirst(s, found, n).board.Blocked(found[k])
  {
    var t := found[k];
    var at := PlaceFirst(s, found, k + 1).board;
    if !PlaceFirst(s, found, k).board.Blocked(t) {
      assert at.markedA[t.a];
    }
    assert at.Blocked(t);
    PlaceFirstGrows(s, found, k + 1, n);
    var after := PlaceFirst(s, found, n).board;
    if AnyMarked(at.markedA, t.a, t.length) {
      var p :| t.a <= p < t.a + t.length && at.markedA[p];
      assert after.markedA[p];
    } else {
      var p :| t.b <= p < t.b + t.length && at.markedB[p];
      assert after.markedB[p];
    }
  }

  function Round(s: State, minMatch: nat): (r: State)
    requires s.board.Valid() && minMatch > 0
    ensures r.board.Valid() && r.board.a == s.board.a && r.board.b == s.board.b
  {
    CandidatesAre(s.board, minMatch);
    PlaceFirst(s, s.board.Candidates(minMatch), |s.board.Candidates(minMatch)|)
  }

  lemma {:induction false} RunLengthGrows(before: Board, after: Board, i: nat, j: nat)
    requires Grows(before, after)
    ensures after.RunLength(i, j) <= before.RunLength(i, j)
    decreases |before.a| - i
  {
    if after.Match(i, j) {
      RunLengthGrows(before, after, i + 1, j + 1);
    }
  }

  /** Round lengths strictly descend: no free common run of the handled length is left. */
  lemma RoundDescends(s: State, minMatch: nat)
    requires s.board.Valid() && minMatch > 0 && s.board.Candidates(minMatch) != []
    ensures Round(s, minMatch).board.Longest() < s.board.Longest()
  {
    CandidatesAre(s.board, minMatch);
    var before, after := s.board, Round(s, minMatch).board;
    var found := before.Candidates(minMatch);
    PlaceFirstGrows(s, found, 0, |found|);
    if after.Longest() >= before.Longest() {
      var x, y := LongestReached(after, |after.a|);
      RunLengthGrows(before, after, x, y);
      LongestBounds(before, x, y);
      var t := Tile(x, y, before.Longest());
      assert t in found;
      var k :| 0 <= k < |found| && found[k] == t;
      HandledIsBlocked(s, found, k, |found|);
      RunLengthMeasures(after, x, y, t.length);
      assert false;
    }
  }

  /** Rounds until none has a candidate; the descending round length is what makes it stop. */
  function Rounds(s: State, minMatch: nat): (r: State)
    requires s.board.Valid() && minMatch > 0
    ensures r.board.Valid() && r.board.a == s.board.a && r.board.b == s.board.b
    ensures r.board.Longest() < minMatch
    decreases s.board.Longest()
  {
    CandidatesAre(s.board, minMatch);
    if s.board.Candidates(minMatch) == [] then s
    else
      RoundDescends(s, minMatch);
      Rounds(Round(s, minMatch), minMatch)
  }

  function Unmarked(n: nat): (marks: seq<bool>)
    ensures |marks| == n && forall k :: 0 <= k < n ==> !marks[k]
  {
    seq(n, _ => false)
  }

  function Start(a: seq<Token>, b: seq<Token>): (s: State)
    ensures s.board.Valid()
  {
    State(Board(a, b, Unmarked(|a|), Unmarked(|b|)), [])
  }

  function AtLeastOne(minMatch: int): nat {
    if minMatch < 1 then 1 else minMatch
  }

  function Insert(t: Tile, tiles: seq<Tile>): (r: seq<Tile>)
    ensures multiset(r) == multiset(tiles) + multiset{t}
  {
    if tiles == [] || tiles[|tiles| - 1].a <= t.a then tiles + [t]
    else
      assert tiles == tiles[..|tiles| - 1] + [tiles[|tiles| - 1]];
      Insert(t, tiles[..|tiles| - 1]) + [tiles[|tiles| - 1]]
  }

  /** The final sort by start position. */
  function SortByStart(tiles: seq<Tile>): (r: seq<Tile>)
    ensures multiset(r) == multiset(tiles)
  {
    if tiles == [] then []
    else
      assert tiles == tiles[..|tiles| - 1] + [tiles[|tiles| - 1]];
      Insert(tiles[|tiles| - 1], SortByStart(tiles[..|tiles| - 1]))
  }

  /** The tiling of two token streams, by definition. */
  function Tiling(a: seq<Token>, b: seq<Token>, minMatch: int): seq<Tile> {
    SortByStart(Rounds(Start(a, b), AtLeastOne(minMatch)).tiles)
  }
}
