/** The greedy law: which tilings are the greedy one. */
module GreedyLaw {
  import opened Tiling
  import opened TilingFacts
  import opened EqualStreams

  /** Longer runs go first, and among runs of the same length the one met first in the scan. */
  predicate Preferred(u: Tile, t: Tile) {
    u.length > t.length || (u.length == t.length && ScanLess(u, t))
  }

  /** The run is a tile, or shares a token with a tile that goes before it. */
  predicate Justified(tiles: seq<Tile>, t: Tile) {
    t in tiles || exists u :: u in tiles && !Apart(u, t) && Preferred(u, t)
  }

  /** Ascending disjoint common runs of the least length or more, such that every other such run had to give way to a preferred one.
      Nothing here speaks of rounds, marks or candidates. */
  ghost predicate IsGreedyTiling(a: seq<Token>, b: seq<Token>, tiles: seq<Tile>, least: nat) {
    && (forall t :: t in tiles ==> IsCommonRun(a, b, t) && t.length >= least)
    && (forall i, j :: 0 <= i < j < |tiles| ==> tiles[i].a < tiles[j].a && Apart(tiles[i], tiles[j]))
    && (forall t :: IsCommonRun(a, b, t) && t.length >= least ==> Justified(tiles, t))
  }

  // ---------------------------------------------------------------- the algorithm obeys the law

  /** Every run that can no longer be placed is justified. */
  ghost predicate Settled(s: State, least: nat)
    requires s.board.Valid()
  {
    forall t :: IsCommonRun(s.board.a, s.board.b, t) && t.length >= least && s.board.Blocked(t) ==> Justified(s.tiles, t)
  }

  lemma JustifiedStays(tiles: seq<Tile>, more: Tile, t: Tile)
    requires Justified(tiles, t)
    ensures Justified(tiles + [more], t)
  {
    hide Apart, Preferred;
    var all := tiles + [more];
    assert forall u :: u in tiles ==> u in all;
    if t !in tiles {
      var u :| u in tiles && !Apart(u, t) && Preferred(u, t);
      assert u in all;
    }
  }

  /** What a placed tile blocks shares a token with it. */
  lemma BlockedByPlaced(board: Board, u: Tile, t: Tile)
    requires board.Valid() && board.Fits(u) && board.Fits(t) && !board.Blocked(t) && board.Place(u).Blocked(t)
    ensures !Apart(u, t)
  {
    var after := board.Place(u);
    if AnyMarked(after.markedA, t.a, t.length) {
      var k :| t.a <= k < t.a + t.length && after.markedA[k];
      assert !board.markedA[k];
    } else {
      var k :| t.b <= k < t.b + t.length && after.markedB[k];
      assert !board.markedB[k];
    }
  }

  lemma FreeIsMeasured(board: Board, t: Tile)
    requires board.Valid() && IsCommonRun(board.a, board.b, t) && !board.Blocked(t)
    ensures t.length <= board.RunLength(t.a, t.b) <= board.Longest()
  {
    RunLengthMeasures(board, t.a, t.b, t.length);
    LongestBounds(board, t.a, t.b);
  }

  lemma StillFreeBefore(before: Board, after: Board, t: Tile)
    requires Grows(before, after) && before.Fits(t) && !after.Blocked(t)
    ensures !before.Blocked(t)
  {
  }

  /** A run that the n-th candidate blocks is that candidate, is shorter, or comes later in the scan. */
  lemma NewlyBlocked(s: State, found: seq<Tile>, n: nat, least: nat, t: Tile)
    requires s.board.Valid() && least > 0 && found == s.board.Candidates(least) && AllFit(s.board, found) && n < |found|
    requires IsCommonRun(s.board.a, s.board.b, t) && t.length >= least && InScanOrder(found)
    requires !PlaceFirst(s, found, n).board.Blocked(t)
    ensures found[n] == t || Preferred(found[n], t)
  {
    var u := found[n];
    PlaceFirstGrows(s, found, 0, n);
    StillFreeBefore(s.board, PlaceFirst(s, found, n).board, t);
    FreeIsMeasured(s.board, t);
    CandidatesAre(s.board, least);
    assert u in found;
    if t.length == u.length {
      assert t in found;
      var p :| 0 <= p < |found| && found[p] == t;
      if p < n {
        HandledIsBlocked(s, found, p, n);
      }
    }
  }

  lemma {:induction false} PassSettles(s: State, found: seq<Tile>, n: nat, least: nat)
    requires s.board.Valid() && least > 0 && found == s.board.Candidates(least) && AllFit(s.board, found) && n <= |found|
    requires InScanOrder(found) && Settled(s, least)
    ensures Settled(PlaceFirst(s, found, n), least)
  {
    if n > 0 {
      PassSettles(s, found, n - 1, least);
      var before, after, u := PlaceFirst(s, found, n - 1), PlaceFirst(s, found, n), found[n - 1];
      if !before.board.Blocked(u) {
        hide PlaceFirst, IsCommonRun, Justified, Preferred, Apart, InScanOrder, Board.Candidates;
        forall t | IsCommonRun(after.board.a, after.board.b, t) && t.length >= least && after.board.Blocked(t) ensures Justified(after.tiles, t) {
          OneMoreSettles(s, found, n - 1, least, t, before, after);
        }
      }
    }
  }

  lemma OneMoreSettles(s: State, found: seq<Tile>, n: nat, least: nat, t: Tile, before: State, after: State)
    requires s.board.Valid() && least > 0 && found == s.board.Candidates(least) && AllFit(s.board, found) && n < |found| && InScanOrder(found)
    requires before == PlaceFirst(s, found, n) && after == State(before.board.Place(found[n]), before.tiles + [found[n]])
    requires Settled(before, least) && IsCommonRun(s.board.a, s.board.b, t) && t.length >= least && after.board.Blocked(t)
    ensures Justified(after.tiles, t)
  {
    hide PlaceFirst, Apart, Preferred, InScanOrder, Board.Candidates;
    if before.board.Blocked(t) {
      JustifiedStays(before.tiles, found[n], t);
    } else {
      NewlyBlocked(s, found, n, least, t);
      BlockedByPlaced(before.board, found[n], t);
      assert found[n] in after.tiles;
    }
  }

  lemma CandidatesInScanOrder(board: Board, least: nat)
    requires board.Valid() && least > 0
    ensures InScanOrder(board.Candidates(least))
  {
    if board.Longest() >= least {
      RunsInScanOrder(board, board.Longest(), |board.a|);
    }
  }

  lemma {:induction false} RoundsSettle(s: State, least: nat)
    requires s.board.Valid() && least > 0 && Settled(s, least)
    ensures Settled(Rounds(s, least), least)
    decreases s.board.Longest()
  {
    hide Settled;
    CandidatesAre(s.board, least);
    var found := s.board.Candidates(least);
    if found != [] {
      CandidatesInScanOrder(s.board, least);
      PassSettles(s, found, |found|, least);
      RoundDescends(s, least);
      RoundsSettle(Round(s, least), least);
    }
  }

  lemma StartIsSettled(a: seq<Token>, b: seq<Token>, least: nat)
    ensures Settled(Start(a, b), least)
  {
  }

  /** On return every long enough run is blocked. */
  lemma AllBlocked(board: Board, least: nat, t: Tile)
    requires board.Valid() && board.Longest() < least && IsCommonRun(board.a, board.b, t) && t.length >= least
    ensures board.Blocked(t)
  {
    if !board.Blocked(t) {
      FreeIsMeasured(board, t);
    }
  }

  lemma SameTilesJustify(tiles: seq<Tile>, other: seq<Tile>, t: Tile)
    requires Justified(tiles, t) && forall u :: u in tiles ==> u in other
    ensures Justified(other, t)
  {
    hide Apart, Preferred;
  }

  lemma RunIsJustified(a: seq<Token>, b: seq<Token>, minMatch: int, t: Tile)
    requires IsCommonRun(a, b, t) && t.length >= AtLeastOne(minMatch)
    ensures Justified(Tiling.Tiling(a, b, minMatch), t)
  {
    hide Tiling.Tiling, Rounds, IsCommonRun, Apart, Justified, Sound, CoversA, CoversB, Preferred;
    var least := AtLeastOne(minMatch);
    var s := TilingState(a, b, minMatch);
    StartIsSettled(a, b, least);
    RoundsSettle(Start(a, b), least);
    AllBlocked(s.board, least, t);
    SameTilesJustify(s.tiles, Tiling.Tiling(a, b, minMatch), t);
  }

  lemma TilingIsGreedy(a: seq<Token>, b: seq<Token>, minMatch: int)
    ensures IsGreedyTiling(a, b, Tiling.Tiling(a, b, minMatch), AtLeastOne(minMatch))
  {
    hide Tiling.Tiling, IsCommonRun, Apart, Justified;
    var tiles, least := Tiling.Tiling(a, b, minMatch), AtLeastOne(minMatch);
    TilesAreGenuineAndDisjoint(a, b, minMatch);
    forall i, j | 0 <= i < j < |tiles| ensures tiles[i].a < tiles[j].a {
      assert tiles[i] in tiles;
    }
    forall t | IsCommonRun(a, b, t) && t.length >= least ensures Justified(tiles, t) {
      RunIsJustified(a, b, minMatch, t);
    }
  }

  // ---------------------------------------------------------------- and nothing else does

  /** Two greedy tilings have the same tiles: whatever either of them gives way to is preferred. */
  lemma {:induction false} SameTiles(a: seq<Token>, b: seq<Token>, tiles: seq<Tile>, others: seq<Tile>, least: nat, t: Tile)
    requires IsGreedyTiling(a, b, tiles, least) && IsGreedyTiling(a, b, others, least) && t in tiles && least > 0
    ensures t in others
    decreases |a| - t.length, t.a, t.b
  {
    hide IsCommonRun, Apart;
    assert IsCommonRun(a, b, t) && Justified(others, t);
    if t !in others {
      var u :| u in others && !Apart(u, t) && Preferred(u, t);
      assert IsCommonRun(a, b, u) && u.length <= |a| && u.length >= least by { RunFits(a, b, u); }
      RunFits(a, b, t);
      SameTiles(a, b, others, tiles, least, u);
      TilesAreApart(tiles, u, t);
    }
  }

  lemma RunFits(a: seq<Token>, b: seq<Token>, t: Tile)
    requires IsCommonRun(a, b, t)
    ensures t.length <= |a|
  {
  }

  lemma TilesAreApart(tiles: seq<Tile>, u: Tile, t: Tile)
    requires (forall i, j :: 0 <= i < j < |tiles| ==> Apart(tiles[i], tiles[j])) && u in tiles && t in tiles && u != t
    ensures Apart(u, t)
  {
    var i :| 0 <= i < |tiles| && tiles[i] == u;
    var j :| 0 <= j < |tiles| && tiles[j] == t;
    assert i < j || j < i;
  }

  predicate Ascends(tiles: seq<Tile>) {
    forall i, j :: 0 <= i < j < |tiles| ==> tiles[i].a < tiles[j].a
  }

  lemma {:induction false} AscendingListsAgree(tiles: seq<Tile>, others: seq<Tile>)
    requires Ascends(tiles) && Ascends(others) && forall t :: t in tiles <==> t in others
    ensures tiles == others
  {
    EmptyOrNot(tiles);
    EmptyOrNot(others);
    if tiles != [] {
      var m, n := |tiles| - 1, |others| - 1;
      LastIsGreatest(tiles);
      LastIsGreatest(others);
      assert tiles[m] in others && others[n] in tiles;
      assert tiles[m] == others[n];
      forall t ensures t in tiles[..m] <==> t in others[..n] {
        InitHasTheRest(tiles, t);
        InitHasTheRest(others, t);
      }
      AscendingListsAgree(tiles[..m], others[..n]);
    }
  }

  lemma EmptyOrNot(tiles: seq<Tile>)
    ensures tiles == [] || exists t :: t in tiles
  {
    if tiles != [] {
      assert tiles[0] in tiles;
    }
  }

  lemma LastIsGreatest(tiles: seq<Tile>)
    requires Ascends(tiles) && tiles != []
    ensures forall t :: t in tiles ==> t == tiles[|tiles| - 1] || t.a < tiles[|tiles| - 1].a
  {
  }

  lemma InitHasTheRest(tiles: seq<Tile>, t: Tile)
    requires Ascends(tiles) && tiles != []
    ensures t in tiles[..|tiles| - 1] <==> t in tiles && t != tiles[|tiles| - 1]
  {
    var init := tiles[..|tiles| - 1];
    assert tiles == init + [tiles[|tiles| - 1]];
    if t in init {
      var k :| 0 <= k < |init| && init[k] == t;
      assert tiles[k].a < tiles[|tiles| - 1].a;
    }
  }

  /** The algorithm computes the one greedy tiling there is: a list of tiles is its result if and only if it obeys the law. */
  lemma GreedyTilingIsUnique(a: seq<Token>, b: seq<Token>, minMatch: int, tiles: seq<Tile>)
    ensures tiles == Tiling.Tiling(a, b, minMatch) <==> IsGreedyTiling(a, b, tiles, AtLeastOne(minMatch))
  {
    var result := Tiling.Tiling(a, b, minMatch);
    TilingIsGreedy(a, b, minMatch);
    if IsGreedyTiling(a, b, tiles, AtLeastOne(minMatch)) {
      hide Tiling.Tiling, Justified, IsCommonRun, Apart;
      forall t ensures t in tiles <==> t in result {
        if t in tiles {
          SameTiles(a, b, tiles, result, AtLeastOne(minMatch), t);
        }
        if t in result {
          SameTiles(a, b, result, tiles, AtLeastOne(minMatch), t);
        }
      }
      AscendingListsAgree(tiles, result);
    }
  }

  /** A longest common run that the scan meets before all others of its length is always a tile. */
  lemma FirstLongestIsATile(a: seq<Token>, b: seq<Token>, minMatch: int, t: Tile)
    requires IsCommonRun(a, b, t) && t.length >= AtLeastOne(minMatch)
    requires forall u :: IsCommonRun(a, b, u) && u != t ==> u.length < t.length || (u.length == t.length && (t.a < u.a || (t.a == u.a && t.b < u.b)))
    ensures t in Tiling.Tiling(a, b, minMatch)
  {
    TilingIsGreedy(a, b, minMatch);
    hide Tiling.Tiling, IsCommonRun, Apart;
    assert Justified(Tiling.Tiling(a, b, minMatch), t);
    if u :| u in Tiling.Tiling(a, b, minMatch) && !Apart(u, t) && Preferred(u, t) {
      assert IsCommonRun(a, b, u);
    }
  }
}
