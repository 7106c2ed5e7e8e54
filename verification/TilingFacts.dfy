/** What every tiling guarantees, for any two token streams and any minMatch. */
module TilingFacts {
  import opened Tiling

  predicate Overlap(start: nat, length: nat, otherStart: nat, otherLength: nat) {
    start < otherStart + otherLength && otherStart < start + length
  }

  predicate Apart(t: Tile, u: Tile) {
    !Overlap(t.a, t.length, u.a, u.length) && !Overlap(t.b, t.length, u.b, u.length)
  }

  predicate CoversA(tiles: seq<Tile>, k: nat) {
    exists t :: t in tiles && t.a <= k < t.a + t.length
  }

  predicate CoversB(tiles: seq<Tile>, k: nat) {
    exists t :: t in tiles && t.b <= k < t.b + t.length
  }

  /** Every tile is a common run of at least minMatch tokens, no tile is listed twice and no two tiles share a token. */
  ghost predicate Disjoint(a: seq<Token>, b: seq<Token>, tiles: seq<Tile>, minMatch: nat) {
    && (forall t :: t in tiles ==> IsCommonRun(a, b, t) && t.length >= minMatch && multiset(tiles)[t] == 1)
    && (forall t, u :: t in tiles && u in tiles && t != u ==> Apart(t, u))
  }

  /** The marks are exactly the tokens under the tiles, and as many as the tile lengths add up to. */
  ghost predicate Accounts(s: State) {
    && s.board.Valid()
    && (forall k :: 0 <= k < |s.board.a| ==> (s.board.markedA[k] <==> CoversA(s.tiles, k)))
    && (forall k :: 0 <= k < |s.board.b| ==> (s.board.markedB[k] <==> CoversB(s.tiles, k)))
    && TiledTokens(s.tiles) == CountMarked(s.board.markedA) == CountMarked(s.board.markedB)
  }

  ghost predicate Sound(s: State, minMatch: nat) {
    Accounts(s) && Disjoint(s.board.a, s.board.b, s.tiles, minMatch)
  }

  lemma {:induction false} UnmarkedCount(n: nat)
    ensures CountMarked(Unmarked(n)) == 0
  {
    if n > 0 {
      UnmarkedCount(n - 1);
      assert Unmarked(n)[..n - 1] == Unmarked(n - 1);
    }
  }

  lemma StartIsSound(a: seq<Token>, b: seq<Token>, minMatch: nat)
    ensures Sound(Start(a, b), minMatch)
  {
    UnmarkedCount(|a|);
    UnmarkedCount(|b|);
  }

  /** A free tile shares no token with the tiles already placed. */
  lemma FreeIsApart(s: State, t: Tile, u: Tile)
    requires Accounts(s) && s.board.Fits(t) && !s.board.Blocked(t) && t.length > 0
    requires u in s.tiles && u.length > 0 && s.board.Fits(u)
    ensures Apart(t, u)
  {
    if Overlap(t.a, t.length, u.a, u.length) {
      var k := Max(t.a, u.a);
      assert CoversA(s.tiles, k);
      assert false;
    }
    if Overlap(t.b, t.length, u.b, u.length) {
      var k := Max(t.b, u.b);
      assert CoversB(s.tiles, k);
      assert false;
    }
  }

  lemma PlacingAccounts(s: State, t: Tile)
    requires Accounts(s) && s.board.Fits(t) && !s.board.Blocked(t)
    ensures Accounts(State(s.board.Place(t), s.tiles + [t]))
  {
    var r := State(s.board.Place(t), s.tiles + [t]);
    CountAfterMark(s.board.markedA, t.a, t.length);
    CountAfterMark(s.board.markedB, t.b, t.length);
    assert r.tiles[..|r.tiles| - 1] == s.tiles;
    forall k | 0 <= k < |s.board.a| ensures r.board.markedA[k] <==> CoversA(r.tiles, k) {
      assert t in r.tiles;
      if CoversA(s.tiles, k) {
        var u :| u in s.tiles && u.a <= k < u.a + u.length;
        assert u in r.tiles;
      }
    }
    forall k | 0 <= k < |s.board.b| ensures r.board.markedB[k] <==> CoversB(r.tiles, k) {
      assert t in r.tiles;
      if CoversB(s.tiles, k) {
        var u :| u in s.tiles && u.b <= k < u.b + u.length;
        assert u in r.tiles;
      }
    }
  }

  lemma OneMoreIsDisjoint(a: seq<Token>, b: seq<Token>, tiles: seq<Tile>, t: Tile, minMatch: nat)
    requires Disjoint(a, b, tiles, minMatch) && IsCommonRun(a, b, t) && t.length >= minMatch
    requires forall u :: u in tiles ==> Apart(t, u) && Apart(u, t) && u != t
    ensures Disjoint(a, b, tiles + [t], minMatch)
  {
    hide IsCommonRun, Apart;
    var more := tiles + [t];
    assert multiset(more) == multiset(tiles) + multiset{t};
    assert forall u :: u in more <==> u in tiles || u == t;
    assert t !in tiles;
    assert multiset(tiles)[t] == 0;
  }

  lemma PlacingIsSound(s: State, t: Tile, minMatch: nat)
    requires Sound(s, minMatch) && s.board.Fits(t) && !s.board.Blocked(t)
    requires IsCommonRun(s.board.a, s.board.b, t) && t.length >= minMatch > 0
    ensures Sound(State(s.board.Place(t), s.tiles + [t]), minMatch)
  {
    PlacingAccounts(s, t);
    forall u | u in s.tiles ensures Apart(t, u) && Apart(u, t) && u != t {
      FreeIsApart(s, t, u);
    }
    hide Accounts, Disjoint;
    OneMoreIsDisjoint(s.board.a, s.board.b, s.tiles, t, minMatch);
  }

  lemma {:induction false} PassIsSound(s: State, found: seq<Tile>, n: nat, minMatch: nat)
    requires Sound(s, minMatch) && AllFit(s.board, found) && n <= |found| && minMatch > 0
    requires forall t :: t in found ==> IsCommonRun(s.board.a, s.board.b, t) && t.length >= minMatch
    ensures Sound(PlaceFirst(s, found, n), minMatch)
  {
    if n > 0 {
      PassIsSound(s, found, n - 1, minMatch);
      var before := PlaceFirst(s, found, n - 1);
      if !before.board.Blocked(found[n - 1]) {
        PlacingIsSound(before, found[n - 1], minMatch);
      }
    }
  }

  lemma {:induction false} RoundsAreSound(s: State, minMatch: nat)
    requires Sound(s, minMatch) && minMatch > 0
    ensures Sound(Rounds(s, minMatch), minMatch)
    decreases s.board.Longest()
  {
    CandidatesAre(s.board, minMatch);
    var found := s.board.Candidates(minMatch);
    if found != [] {
      forall t | t in found ensures IsCommonRun(s.board.a, s.board.b, t) && t.length >= minMatch {
        RunLengthMeasures(s.board, t.a, t.b, t.length);
      }
      PassIsSound(s, found, |found|, minMatch);
      RoundDescends(s, minMatch);
      RoundsAreSound(Round(s, minMatch), minMatch);
    }
  }

  // ---------------------------------------------------------------- the final sort

  predicate Ascending(tiles: seq<Tile>) {
    forall i, j :: 0 <= i < j < |tiles| ==> tiles[i].a <= tiles[j].a
  }

  lemma {:induction false} InsertAscends(t: Tile, tiles: seq<Tile>)
    requires Ascending(tiles)
    ensures Ascending(Insert(t, tiles))
  {
    var n := |tiles|;
    if n > 0 && tiles[n - 1].a > t.a {
      var init := Insert(t, tiles[..n - 1]);
      InsertAscends(t, tiles[..n - 1]);
      forall i | 0 <= i < |init| ensures init[i].a <= tiles[n - 1].a {
        assert init[i] in multiset(init);
        assert init[i] == t || init[i] in tiles[..n - 1];
      }
    }
  }

  lemma {:induction false} InsertTotals(t: Tile, tiles: seq<Tile>)
    ensures TiledTokens(Insert(t, tiles)) == TiledTokens(tiles) + t.length
  {
    var n := |tiles|;
    var r := Insert(t, tiles);
    if n == 0 || tiles[n - 1].a <= t.a {
      assert r[..|r| - 1] == tiles;
    } else {
      InsertTotals(t, tiles[..n - 1]);
      assert r[..|r| - 1] == Insert(t, tiles[..n - 1]);
    }
  }

  lemma InsertKeeps(t: Tile, tiles: seq<Tile>)
    requires Ascending(tiles)
    ensures Ascending(Insert(t, tiles)) && TiledTokens(Insert(t, tiles)) == TiledTokens(tiles) + t.length
  {
    InsertAscends(t, tiles);
    InsertTotals(t, tiles);
  }

  lemma {:induction false} SortSorts(tiles: seq<Tile>)
    ensures Ascending(SortByStart(tiles)) && TiledTokens(SortByStart(tiles)) == TiledTokens(tiles)
  {
    if tiles != [] {
      SortSorts(tiles[..|tiles| - 1]);
      InsertKeeps(tiles[|tiles| - 1], SortByStart(tiles[..|tiles| - 1]));
    }
  }

  lemma SameTilesCoverTheSame(tiles: seq<Tile>, sorted: seq<Tile>)
    requires multiset(tiles) == multiset(sorted)
    ensures forall t :: t in tiles <==> t in sorted
    ensures forall k: nat :: CoversA(tiles, k) <==> CoversA(sorted, k)
    ensures forall k: nat :: CoversB(tiles, k) <==> CoversB(sorted, k)
  {
    assert forall t :: t in tiles <==> t in multiset(tiles);
    assert forall t :: t in sorted <==> t in multiset(sorted);
  }

  // ---------------------------------------------------------------- the theorems

  /** The state behind a tiling, with everything the sort leaves unchanged carried over to the sorted list. */
  lemma TilingState(a: seq<Token>, b: seq<Token>, minMatch: int) returns (s: State)
    ensures s == Rounds(Start(a, b), AtLeastOne(minMatch))
    ensures Sound(s, AtLeastOne(minMatch))
    ensures var tiles := Tiling.Tiling(a, b, minMatch);
            && multiset(tiles) == multiset(s.tiles) && TiledTokens(tiles) == TiledTokens(s.tiles) && Ascending(tiles)
            && (forall t :: t in tiles <==> t in s.tiles)
            && (forall k: nat :: CoversA(tiles, k) <==> CoversA(s.tiles, k))
            && (forall k: nat :: CoversB(tiles, k) <==> CoversB(s.tiles, k))
  {
    StartIsSound(a, b, AtLeastOne(minMatch));
    RoundsAreSound(Start(a, b), AtLeastOne(minMatch));
    s := Rounds(Start(a, b), AtLeastOne(minMatch));
    SortSorts(s.tiles);
    SameTilesCoverTheSame(s.tiles, SortByStart(s.tiles));
  }

  /** Tiles are genuine, long enough, pairwise disjoint on both sides and in ascending order on the first. */
  lemma TilesAreGenuineAndDisjoint(a: seq<Token>, b: seq<Token>, minMatch: int)
    ensures var tiles := Tiling.Tiling(a, b, minMatch);
            && (forall t :: t in tiles ==> IsCommonRun(a, b, t) && t.length >= 1 && t.length >= minMatch)
            && (forall i, j :: 0 <= i < j < |tiles| ==> tiles[i].a + tiles[i].length <= tiles[j].a)
            && (forall i, j :: 0 <= i < j < |tiles| ==> Apart(tiles[i], tiles[j]))
  {
    var s := TilingState(a, b, minMatch);
    var tiles := Tiling.Tiling(a, b, minMatch);
    hide Tiling.Tiling;
    forall i, j | 0 <= i < j < |tiles|
      ensures Apart(tiles[i], tiles[j]) && tiles[i].a + tiles[i].length <= tiles[j].a
    {
      assert tiles[i] in s.tiles && tiles[j] in s.tiles;
      DistinctWhenOnce(tiles, i, j);
    }
  }

  lemma DistinctWhenOnce(tiles: seq<Tile>, i: nat, j: nat)
    requires i < j < |tiles| && multiset(tiles)[tiles[i]] == 1
    ensures tiles[i] != tiles[j]
  {
    var rest := tiles[..j] + tiles[j + 1..];
    assert tiles == tiles[..j] + [tiles[j]] + tiles[j + 1..];
    assert multiset(tiles) == multiset(rest) + multiset{tiles[j]};
    assert rest[i] in multiset(rest);
  }

  /** Maximality: on return no common run of max(minMatch, 1) tokens is left uncovered on both sides. */
  lemma NoRunIsLeft(a: seq<Token>, b: seq<Token>, minMatch: int, t: Tile)
    requires IsCommonRun(a, b, t) && t.length >= 1 && t.length >= minMatch
    ensures var tiles := Tiling.Tiling(a, b, minMatch);
            || (exists k :: t.a <= k < t.a + t.length && CoversA(tiles, k))
            || (exists k :: t.b <= k < t.b + t.length && CoversB(tiles, k))
  {
    var s := TilingState(a, b, minMatch);
    var tiles := Tiling.Tiling(a, b, minMatch);
    LongestBounds(s.board, t.a, t.b);
    RunLengthMeasures(s.board, t.a, t.b, t.length);
    var onA, p := BlockedSomewhere(s.board, t);
    if onA {
      assert CoversA(tiles, p);
    } else {
      assert CoversB(tiles, p);
    }
  }

  lemma BlockedSomewhere(board: Board, t: Tile) returns (onA: bool, p: nat)
    requires board.Valid() && IsCommonRun(board.a, board.b, t) && !board.FreeRun(t.a, t.b, t.length)
    ensures if onA then t.a <= p < t.a + t.length && board.markedA[p] else t.b <= p < t.b + t.length && board.markedB[p]
  {
    onA := exists k :: t.a <= k < t.a + t.length && board.markedA[k];
    if onA {
      p :| t.a <= p < t.a + t.length && board.markedA[p];
    } else {
      p :| t.b <= p < t.b + t.length && board.markedB[p];
    }
  }

  /** Marks that lie on tokens only are at most as many as the tokens, and as many exactly when no token is unmarked. */
  lemma MarksAgainstTokens(tokens: seq<Token>, marks: seq<bool>)
    requires |marks| == |tokens| && forall k :: 0 <= k < |marks| && marks[k] ==> tokens[k] != SEPARATOR
    ensures CountMarked(marks) <= CountTokens(tokens)
    ensures CountMarked(marks) == CountTokens(tokens) <==> forall k :: 0 <= k < |tokens| && tokens[k] != SEPARATOR ==> marks[k]
  {
    CountMonotone(marks, Matchable(tokens));
    if forall k :: 0 <= k < |tokens| && tokens[k] != SEPARATOR ==> marks[k] {
      assert marks == Matchable(tokens);
    }
  }

  /** Each token is matched at most once, so neither side can be matched beyond its own tokens;
      a side is used up exactly when every one of its tokens is under a tile. */
  lemma MatchedIsBounded(a: seq<Token>, b: seq<Token>, minMatch: int)
    ensures var tiles := Tiling.Tiling(a, b, minMatch);
            && TiledTokens(tiles) <= CountTokens(a) && TiledTokens(tiles) <= CountTokens(b)
            && (TiledTokens(tiles) == CountTokens(a) <==> forall k: nat :: k < |a| && a[k] != SEPARATOR ==> CoversA(tiles, k))
            && (TiledTokens(tiles) == CountTokens(b) <==> forall k: nat :: k < |b| && b[k] != SEPARATOR ==> CoversB(tiles, k))
  {
    hide Rounds, SortByStart;
    var s := TilingState(a, b, minMatch);
    CoveredIsMatchable(s, AtLeastOne(minMatch));
    MarksAgainstTokens(a, s.board.markedA);
    MarksAgainstTokens(b, s.board.markedB);
  }

  lemma RunHasTokens(a: seq<Token>, b: seq<Token>, t: Tile, i: nat)
    requires IsCommonRun(a, b, t) && i < t.length
    ensures t.a + i < |a| && t.b + i < |b| && a[t.a + i] == b[t.b + i] != SEPARATOR
  {
    assert a[t.a + i] == b[t.a + i - t.a + t.b];
  }

  lemma CoveredIsMatchable(s: State, minMatch: nat)
    requires Sound(s, minMatch)
    ensures forall k :: 0 <= k < |s.board.a| && s.board.markedA[k] ==> s.board.a[k] != SEPARATOR
    ensures forall k :: 0 <= k < |s.board.b| && s.board.markedB[k] ==> s.board.b[k] != SEPARATOR
  {
    hide IsCommonRun, Apart;
    forall k | 0 <= k < |s.board.a| && s.board.markedA[k] ensures s.board.a[k] != SEPARATOR {
      var t :| t in s.tiles && t.a <= k < t.a + t.length;
      RunHasTokens(s.board.a, s.board.b, t, k - t.a);
    }
    forall k | 0 <= k < |s.board.b| && s.board.markedB[k] ensures s.board.b[k] != SEPARATOR {
      var t :| t in s.tiles && t.b <= k < t.b + t.length;
      RunHasTokens(s.board.a, s.board.b, t, k - t.b);
    }
  }
}
