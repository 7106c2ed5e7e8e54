/** A token stream tiled against itself: every tile lays a whole segment onto itself. */
module EqualStreams {
  import opened Tiling
  import opened TilingFacts

  /** A maximal stretch of tokens between separators, as one kept function leaves in a fingerprint. */
  predicate IsSegment(a: seq<Token>, start: nat, length: nat) {
    && length > 0 && start + length <= |a|
    && (forall k :: start <= k < start + length ==> a[k] != SEPARATOR)
    && (start > 0 ==> a[start - 1] == SEPARATOR)
    && (start + length < |a| ==> a[start + length] == SEPARATOR)
  }

  ghost predicate AllSegmentsReach(a: seq<Token>, minMatch: nat) {
    forall start: nat, length: nat :: IsSegment(a, start, length) ==> length >= minMatch
  }

  /** Marks never stop inside a segment. */
  ghost predicate Whole(a: seq<Token>, marks: seq<bool>) {
    |marks| == |a| &&
    forall k :: 0 < k < |a| && a[k] != SEPARATOR && a[k - 1] != SEPARATOR ==> marks[k] == marks[k - 1]
  }

  ghost predicate Mirrored(s: State) {
    && s.board.Valid() && s.board.a == s.board.b && s.board.markedA == s.board.markedB
    && Whole(s.board.a, s.board.markedA)
    && forall t :: t in s.tiles ==> t.a == t.b && IsSegment(s.board.a, t.a, t.length)
  }

  /** Inside one segment all marks agree. */
  lemma {:induction false} SegmentIsUniform(a: seq<Token>, marks: seq<bool>, start: nat, k: nat)
    requires Whole(a, marks) && start <= k < |a|
    requires forall p :: start <= p <= k ==> a[p] != SEPARATOR
    ensures marks[k] == marks[start]
    decreases k - start
  {
    if start < k {
      SegmentIsUniform(a, marks, start, k - 1);
    }
  }

  /** n free tokens in a row. */
  predicate FreeStretch(a: seq<Token>, marks: seq<bool>, i: nat, n: nat)
    requires |marks| == |a|
  {
    i + n <= |a| && forall p :: i <= p < i + n ==> a[p] != SEPARATOR && !marks[p]
  }

  lemma DiagonalRun(board: Board, i: nat, n: nat)
    requires board.Valid() && board.a == board.b && board.markedA == board.markedB && i <= |board.a|
    ensures board.RunLength(i, i) >= n <==> FreeStretch(board.a, board.markedA, i, n)
  {
    RunLengthMeasures(board, i, i, n);
  }

  /** A free stretch that does not end at a separator is not the longest one. */
  lemma StretchExtends(a: seq<Token>, marks: seq<bool>, i: nat, n: nat)
    requires Whole(a, marks) && n > 0 && FreeStretch(a, marks, i, n)
    ensures i + n < |a| && a[i + n] != SEPARATOR ==> FreeStretch(a, marks, i, n + 1)
    ensures i > 0 && a[i - 1] != SEPARATOR ==> FreeStretch(a, marks, i - 1, n + 1)
  {
    if i + n < |a| && a[i + n] != SEPARATOR {
      assert marks[i + n] == marks[i + n - 1];
    }
    if i > 0 && a[i - 1] != SEPARATOR {
      assert marks[i] == marks[i - 1];
    }
  }

  /** Along the diagonal a longest run is a whole segment. */
  lemma DiagonalStartsSegment(board: Board, i: nat, n: nat)
    requires board.Valid() && board.a == board.b && board.markedA == board.markedB && Whole(board.a, board.markedA)
    requires n > 0 && board.FreeRun(i, i, n) && board.Longest() == n
    ensures IsSegment(board.a, i, n) && board.RunLength(i, i) == n
  {
    DiagonalRun(board, i, n);
    StretchExtends(board.a, board.markedA, i, n);
    DiagonalRun(board, i, n + 1);
    LongestBounds(board, i, i);
    if i > 0 {
      DiagonalRun(board, i - 1, n + 1);
      LongestBounds(board, i - 1, i - 1);
    }
  }

  /** Every candidate joins two whole free segments, and the two diagonal tiles of those segments are candidates too. */
  lemma CandidatesAreSegments(board: Board, minMatch: nat, t: Tile)
    requires board.Valid() && board.a == board.b && board.markedA == board.markedB && Whole(board.a, board.markedA)
    requires minMatch > 0 && t in board.Candidates(minMatch)
    ensures IsSegment(board.a, t.a, t.length) && IsSegment(board.b, t.b, t.length)
    ensures Tile(t.a, t.a, t.length) in board.Candidates(minMatch)
    ensures Tile(t.b, t.b, t.length) in board.Candidates(minMatch)
  {
    CandidatesAre(board, minMatch);
    RunLengthMeasures(board, t.a, t.b, t.length);
    assert board.FreeRun(t.a, t.a, t.length);
    assert board.FreeRun(t.b, t.b, t.length) by {
      forall q | t.b <= q < t.b + t.length ensures board.a[q] != SEPARATOR {
        var p := q - t.b + t.a;
        assert board.a[p] == board.b[p - t.a + t.b];
      }
    }
    DiagonalStartsSegment(board, t.a, t.length);
    DiagonalStartsSegment(board, t.b, t.length);
  }

  // ---------------------------------------------------------------- scan order

  predicate ScanLess(t: Tile, u: Tile) {
    t.a < u.a || (t.a == u.a && t.b < u.b)
  }

  ghost predicate InScanOrder(tiles: seq<Tile>) {
    forall p, q :: 0 <= p < q < |tiles| ==> ScanLess(tiles[p], tiles[q])
  }

  lemma {:induction false} RowInScanOrder(board: Board, length: nat, i: nat, j: nat)
    requires board.Valid() && length > 0
    ensures InScanOrder(board.RowRuns(length, i, j))
  {
    if j > 0 {
      RowInScanOrder(board, length, i, j - 1);
      var init := board.RowRuns(length, i, j - 1);
      forall p | 0 <= p < |init| ensures init[p].a == i && init[p].b < j - 1 {
        RowRunsAre(board, length, i, j - 1);
        assert init[p] in init;
      }
    }
  }

  lemma {:induction false} RunsInScanOrder(board: Board, length: nat, i: nat)
    requires board.Valid() && length > 0
    ensures InScanOrder(board.Runs(length, i))
  {
    if i > 0 {
      var init, row := board.Runs(length, i - 1), board.RowRuns(length, i - 1, |board.b|);
      RunsInScanOrder(board, length, i - 1);
      RowInScanOrder(board, length, i - 1, |board.b|);
      RunsAre(board, length, i - 1);
      RowRunsAre(board, length, i - 1, |board.b|);
      forall p, q | 0 <= p < q < |init + row| ensures ScanLess((init + row)[p], (init + row)[q]) {
        if p < |init| <= q {
          assert init[p] in init && row[q - |init|] in row;
        }
      }
    }
  }

  lemma EarlierInScan(found: seq<Tile>, t: Tile, n: nat) returns (p: nat)
    requires InScanOrder(found) && n < |found| && t in found && ScanLess(t, found[n])
    ensures p < n && found[p] == t
  {
    p :| 0 <= p < |found| && found[p] == t;
  }

  // ---------------------------------------------------------------- rounds

  lemma PlacingSegment(s: State, t: Tile)
    requires Mirrored(s) && t.a == t.b && IsSegment(s.board.a, t.a, t.length)
    ensures Mirrored(State(s.board.Place(t), s.tiles + [t]))
  {
  }

  /** In scan order a segment meets its own copy before any other one is still free on both sides,
      so an off-diagonal candidate always comes too late. */
  lemma OffDiagonalIsBlocked(s: State, found: seq<Tile>, n: nat)
    requires Mirrored(s) && AllFit(s.board, found) && InScanOrder(found) && n < |found|
    requires Mirrored(PlaceFirst(s, found, n))
    requires var t := found[n];
             && t.length > 0 && t.a != t.b && IsSegment(s.board.a, t.a, t.length) && IsSegment(s.board.a, t.b, t.length)
             && Tile(t.a, t.a, t.length) in found && Tile(t.b, t.b, t.length) in found
    ensures PlaceFirst(s, found, n).board.Blocked(found[n])
  {
    var t := found[n];
    var own := if t.a < t.b then t.a else t.b;
    var p := EarlierInScan(found, Tile(own, own, t.length), n);
    HandledIsBlocked(s, found, p, n);
    BlockedSegmentIsMarked(PlaceFirst(s, found, n), own, t.length);
  }

  lemma {:induction false} PassMirrors(s: State, minMatch: nat, n: nat)
    requires Mirrored(s) && minMatch > 0 && n <= |s.board.Candidates(minMatch)|
    requires AllFit(s.board, s.board.Candidates(minMatch))
    ensures Mirrored(PlaceFirst(s, s.board.Candidates(minMatch), n))
  {
    if n > 0 {
      var found := s.board.Candidates(minMatch);
      PassMirrors(s, minMatch, n - 1);
      var before, t := PlaceFirst(s, found, n - 1), found[n - 1];
      assert t in found;
      CandidatesAreSegments(s.board, minMatch, t);
      if t.a != t.b {
        RunsInScanOrder(s.board, s.board.Longest(), |s.board.a|);
        OffDiagonalIsBlocked(s, found, n - 1);
      } else if !before.board.Blocked(t) {
        PlacingSegment(before, t);
      }
    }
  }

  lemma BlockedSegmentIsMarked(s: State, start: nat, length: nat)
    requires Mirrored(s) && IsSegment(s.board.a, start, length) && s.board.Blocked(Tile(start, start, length))
    ensures s.board.markedA[start] && s.board.markedB[start]
  {
    var k :| start <= k < start + length && s.board.markedA[k];
    SegmentIsUniform(s.board.a, s.board.markedA, start, k);
  }

  lemma {:induction false} RoundsMirror(s: State, minMatch: nat)
    requires Mirrored(s) && minMatch > 0
    ensures Mirrored(Rounds(s, minMatch))
    decreases s.board.Longest()
  {
    CandidatesAre(s.board, minMatch);
    var found := s.board.Candidates(minMatch);
    if found != [] {
      PassMirrors(s, minMatch, |found|);
      RoundDescends(s, minMatch);
      RoundsMirror(Round(s, minMatch), minMatch);
    }
  }

  // ---------------------------------------------------------------- the theorems

  /** Equal streams: every tile lays one whole segment onto that same segment. */
  lemma EqualStreamsTileWholeSegments(a: seq<Token>, minMatch: int)
    ensures forall t :: t in Tiling.Tiling(a, a, minMatch) ==> t.a == t.b && IsSegment(a, t.a, t.length)
    ensures forall k: nat :: CoversA(Tiling.Tiling(a, a, minMatch), k) <==> CoversB(Tiling.Tiling(a, a, minMatch), k)
  {
    RoundsMirror(Start(a, a), AtLeastOne(minMatch));
    var s := TilingState(a, a, minMatch);
    var tiles := Tiling.Tiling(a, a, minMatch);
    forall k: nat ensures CoversA(tiles, k) <==> CoversB(tiles, k) {
      if CoversA(tiles, k) {
        var t :| t in tiles && t.a <= k < t.a + t.length;
        assert t.b <= k < t.b + t.length;
      }
      if CoversB(tiles, k) {
        var t :| t in tiles && t.b <= k < t.b + t.length;
        assert t.a <= k < t.a + t.length;
      }
    }
  }

  lemma SegmentsMeetOnlyIfEqual(a: seq<Token>, start: nat, length: nat, otherStart: nat, otherLength: nat, k: nat)
    requires IsSegment(a, start, length) && IsSegment(a, otherStart, otherLength)
    requires start <= k < start + length && otherStart <= k < otherStart + otherLength
    ensures start == otherStart && length == otherLength
  {
  }

  lemma CoveringTile(a: seq<Token>, minMatch: int, start: nat, length: nat, k: nat)
    requires IsSegment(a, start, length) && start <= k < start + length
    requires CoversA(Tiling.Tiling(a, a, minMatch), k)
    ensures length >= minMatch && Tile(start, start, length) in Tiling.Tiling(a, a, minMatch)
  {
    var tiles := Tiling.Tiling(a, a, minMatch);
    var t :| t in tiles && t.a <= k < t.a + t.length;
    EqualStreamsTileWholeSegments(a, minMatch);
    SegmentsMeetOnlyIfEqual(a, start, length, t.a, t.length, k);
    var s := TilingState(a, a, minMatch);
  }

  /** Equal streams: a segment is covered as a whole if it reaches minMatch and left out as a whole if it does not. */
  lemma SegmentIsCoveredIffLong(a: seq<Token>, minMatch: int, start: nat, length: nat, k: nat)
    requires IsSegment(a, start, length) && start <= k < start + length
    ensures CoversA(Tiling.Tiling(a, a, minMatch), k) <==> length >= minMatch
  {
    var tiles := Tiling.Tiling(a, a, minMatch);
    if CoversA(tiles, k) {
      CoveringTile(a, minMatch, start, length, k);
    }
    if length >= minMatch {
      var p := SegmentIsTouched(a, minMatch, start, length);
      CoveringTile(a, minMatch, start, length, p);
    }
  }

  lemma SegmentIsTouched(a: seq<Token>, minMatch: int, start: nat, length: nat) returns (p: nat)
    requires IsSegment(a, start, length) && length >= minMatch
    ensures start <= p < start + length && CoversA(Tiling.Tiling(a, a, minMatch), p)
  {
    var tiles := Tiling.Tiling(a, a, minMatch);
    NoRunIsLeft(a, a, minMatch, Tile(start, start, length));
    EqualStreamsTileWholeSegments(a, minMatch);
    p :| start <= p < start + length && CoversA(tiles, p);
  }

  lemma SegmentAround(a: seq<Token>, k: nat) returns (start: nat, length: nat)
    requires k < |a| && a[k] != SEPARATOR
    ensures IsSegment(a, start, length) && start <= k < start + length
  {
    start := k;
    while start > 0 && a[start - 1] != SEPARATOR
      invariant start <= k && forall p :: start <= p <= k ==> a[p] != SEPARATOR
    {
      start := start - 1;
    }
    length := k + 1 - start;
    while start + length < |a| && a[start + length] != SEPARATOR
      invariant k < start + length <= |a|
      invariant forall p :: start <= p < start + length ==> a[p] != SEPARATOR
      decreases |a| - length
    {
      length := length + 1;
    }
  }

  /** Equal streams are matched completely if and only if every segment reaches minMatch. */
  lemma EqualStreamsMatchIff(a: seq<Token>, minMatch: int)
    ensures TiledTokens(Tiling.Tiling(a, a, minMatch)) == CountTokens(a) <==> AllSegmentsReach(a, AtLeastOne(minMatch))
  {
    var tiles := Tiling.Tiling(a, a, minMatch);
    MatchedIsBounded(a, a, minMatch);
    if AllSegmentsReach(a, AtLeastOne(minMatch)) {
      forall k | 0 <= k < |a| && a[k] != SEPARATOR ensures CoversA(tiles, k) {
        var start, length := SegmentAround(a, k);
        SegmentIsCoveredIffLong(a, minMatch, start, length, k);
      }
    }
    if TiledTokens(tiles) == CountTokens(a) {
      forall start: nat, length: nat | IsSegment(a, start, length) ensures length >= AtLeastOne(minMatch) {
        assert a[start] != SEPARATOR && CoversA(tiles, start);
        SegmentIsCoveredIffLong(a, minMatch, start, length, start);
      }
    }
  }
}
