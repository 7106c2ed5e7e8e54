/** Pairwise similarity on top of the tiling, and setting the reference solution's code aside first. */
module Plagiarism {
  import opened Tiling
  import opened TilingFacts
  import opened EqualStreams
  import opened GreedyTiling
  import opened Fingerprint

  datatype CompareConfig = CompareConfig(minMatchTokens: int, minFuncTokens: int, scoreThreshold: real)

  datatype TileMatch = TileMatch(tile: Tile, spanA: Span, spanB: Span)

  datatype PairResult = PairResult(percent: real, flagged: bool, matches: seq<TileMatch>)

  // ---------------------------------------------------------------- comparing two fingerprints

  /** Twice the matched tokens over all tokens, as a share; two empty files share nothing. */
  function Share(matched: nat, total: int): real {
    if total > 0 then 2.0 * matched as real / total as real else 0.0
  }

  function TileSpan(spans: seq<Span>, start: nat, length: nat): Span
    requires 0 < length && start + length <= |spans|
  {
    Span(spans[start].start, spans[start + length - 1].end)
  }

  predicate TilesFit(p: Print, q: Print, tiles: seq<Tile>) {
    forall t :: t in tiles ==> t.length > 0 && t.a + t.length <= |p.spans| && t.b + t.length <= |q.spans|
  }

  function MatchesOf(p: Print, q: Print, tiles: seq<Tile>): seq<TileMatch>
    requires TilesFit(p, q, tiles)
  {
    seq(|tiles|, k requires 0 <= k < |tiles| =>
      assert tiles[k] in tiles;
      TileMatch(tiles[k], TileSpan(p.spans, tiles[k].a, tiles[k].length), TileSpan(q.spans, tiles[k].b, tiles[k].length)))
  }

  lemma TilingFits(p: Print, q: Print, minMatch: int)
    requires p.Valid() && q.Valid()
    ensures TilesFit(p, q, Tiling.Tiling(p.tokens, q.tokens, minMatch))
  {
    TilesAreGenuineAndDisjoint(p.tokens, q.tokens, minMatch);
  }

  /** The result of comparing two fingerprints. */
  function Compared(p: Print, q: Print, cfg: CompareConfig): PairResult
    requires p.Valid() && q.Valid()
  {
    TilingFits(p, q, cfg.minMatchTokens);
    var tiles := Tiling.Tiling(p.tokens, q.tokens, cfg.minMatchTokens);
    var share := Share(TiledTokens(tiles), p.tokenCount + q.tokenCount);
    PairResult(share * 100.0, share >= cfg.scoreThreshold, MatchesOf(p, q, tiles))
  }

  method SumLengths(tiles: seq<Tile>) returns (total: nat)
    ensures total == TiledTokens(tiles)
  {
    total := 0;
    for k := 0 to |tiles|
      invariant total == TiledTokens(tiles[..k])
    {
      assert tiles[..k + 1][..k] == tiles[..k];
      total := total + tiles[k].length;
    }
    assert tiles[..|tiles|] == tiles;
  }

  method TileMatches(fpA: FileFingerprint, fpB: FileFingerprint, tiles: seq<Tile>) returns (matches: seq<TileMatch>)
    requires TilesFit(fpA.Value(), fpB.Value(), tiles)
    ensures matches == MatchesOf(fpA.Value(), fpB.Value(), tiles)
  {
    matches := [];
    for k := 0 to |tiles|
      invariant matches == MatchesOf(fpA.Value(), fpB.Value(), tiles)[..k]
    {
      var t := tiles[k];
      assert t in tiles;
      matches := matches + [TileMatch(t, TileSpan(fpA.spans, t.a, t.length), TileSpan(fpB.spans, t.b, t.length))];
    }
  }

  method CompareFiles(fpA: FileFingerprint, fpB: FileFingerprint, cfg: CompareConfig) returns (r: PairResult)
    requires fpA.Value().Valid() && fpB.Value().Valid()
    ensures r == Compared(fpA.Value(), fpB.Value(), cfg)
  {
    var tiles := GreedyStringTiling(fpA.tokens[..], fpB.tokens[..], cfg.minMatchTokens);
    var matched := SumLengths(tiles);
    var score := Share(matched, fpA.tokenCount + fpB.tokenCount);
    TilingFits(fpA.Value(), fpB.Value(), cfg.minMatchTokens);
    var matches := TileMatches(fpA, fpB, tiles);
    r := PairResult(score * 100.0, score >= cfg.scoreThreshold, matches);
  }

  /** Similarity is a percentage, and reaches 100 exactly when both files are matched to their last token. */
  lemma SimilarityIsAPercentage(p: Print, q: Print, cfg: CompareConfig)
    requires p.Valid() && q.Valid()
    ensures 0.0 <= Compared(p, q, cfg).percent <= 100.0
    ensures var matched := TiledTokens(Tiling.Tiling(p.tokens, q.tokens, cfg.minMatchTokens));
            Compared(p, q, cfg).percent == 100.0 <==>
            matched == CountTokens(p.tokens) == CountTokens(q.tokens) && matched > 0
  {
    MatchedIsBounded(p.tokens, q.tokens, cfg.minMatchTokens);
    ShareBounds(TiledTokens(Tiling.Tiling(p.tokens, q.tokens, cfg.minMatchTokens)), p.tokenCount, q.tokenCount);
  }

  /** The score is twice the matched tokens out of all tokens, and flags the pair from the threshold on; each match runs from the first byte of its
      tile's first token to the last byte of its last one, on both sides. */
  lemma ComparedIs(p: Print, q: Print, cfg: CompareConfig)
    requires p.Valid() && q.Valid()
    ensures var tiles, r, total := Tiling.Tiling(p.tokens, q.tokens, cfg.minMatchTokens), Compared(p, q, cfg), CountTokens(p.tokens) + CountTokens(q.tokens);
            && r.percent * total as real == 200.0 * TiledTokens(tiles) as real
            && (total == 0 ==> r.percent == 0.0)
            && (total > 0 ==> (r.flagged <==> 2.0 * TiledTokens(tiles) as real >= cfg.scoreThreshold * total as real))
            && (total == 0 ==> (r.flagged <==> cfg.scoreThreshold <= 0.0))
            && |r.matches| == |tiles|
            && forall k :: 0 <= k < |tiles| ==>
              && r.matches[k].tile == tiles[k]
              && 0 < tiles[k].length && tiles[k].a + tiles[k].length <= |p.spans| && tiles[k].b + tiles[k].length <= |q.spans|
              && r.matches[k].spanA.start == p.spans[tiles[k].a].start && r.matches[k].spanA.end == p.spans[tiles[k].a + tiles[k].length - 1].end
              && r.matches[k].spanB.start == q.spans[tiles[k].b].start && r.matches[k].spanB.end == q.spans[tiles[k].b + tiles[k].length - 1].end
  {
    hide Tiling.Tiling, CountTokens, TiledTokens;
    var tiles := Tiling.Tiling(p.tokens, q.tokens, cfg.minMatchTokens);
    MatchedIsBounded(p.tokens, q.tokens, cfg.minMatchTokens);
    TilingFits(p, q, cfg.minMatchTokens);
    ShareIs(TiledTokens(tiles), CountTokens(p.tokens) + CountTokens(q.tokens), cfg.scoreThreshold);
    forall k | 0 <= k < |tiles|
      ensures 0 < tiles[k].length && tiles[k].a + tiles[k].length <= |p.spans| && tiles[k].b + tiles[k].length <= |q.spans|
    {
      assert tiles[k] in tiles;
    }
  }

  lemma ShareIs(matched: nat, total: nat, threshold: real)
    requires 2 * matched <= total
    ensures (Share(matched, total) * 100.0) * total as real == 200.0 * matched as real
    ensures total > 0 ==> (Share(matched, total) >= threshold <==> 2.0 * matched as real >= threshold * total as real)
    ensures total == 0 ==> Share(matched, total) == 0.0
  {
    if total > 0 {
      QuotientAgainst(2.0 * matched as real, total as real, threshold);
    }
  }

  lemma QuotientAgainst(x: real, y: real, t: real)
    requires y > 0.0
    ensures (x / y) * y == x && (x / y >= t <==> x >= t * y)
  {
    var q := x / y;
    assert q * y == x;
    var d := q - t;
    assert d * y == x - t * y;
    SignOf(d, y);
  }

  lemma SignOf(d: real, y: real)
    requires y > 0.0
    ensures d * y >= 0.0 <==> d >= 0.0
  {
  }

  lemma QuotientBounds(x: real, y: real)
    requires 0.0 <= x <= y && y > 0.0
    ensures 0.0 <= x / y <= 1.0 && (x / y == 1.0 <==> x == y)
  {
    assert (x / y) * y == x;
  }

  lemma ShareBounds(matched: nat, countA: nat, countB: nat)
    requires matched <= countA && matched <= countB
    ensures 0.0 <= Share(matched, countA + countB) <= 1.0
    ensures Share(matched, countA + countB) == 1.0 <==> matched == countA == countB && matched > 0
  {
    if countA + countB > 0 {
      QuotientBounds(2.0 * matched as real, (countA + countB) as real);
    }
  }

  /** Two files with the same token stream score exactly 100 if and only if they have a token
      and every function they keep reaches the match minimum. */
  lemma EqualStreamsScore(p: Print, q: Print, cfg: CompareConfig)
    requires p.Valid() && q.Valid() && p.tokens == q.tokens
    ensures Compared(p, q, cfg).percent == 100.0 <==>
            p.tokenCount > 0 && AllSegmentsReach(p.tokens, AtLeastOne(cfg.minMatchTokens))
  {
    SimilarityIsAPercentage(p, q, cfg);
    EqualStreamsMatchIff(p.tokens, cfg.minMatchTokens);
  }

  /** Fingerprints of any two files whose kept functions normalise alike score exactly 100,
      as soon as the configuration keeps no function too short to match. */
  lemma RenamedCopyScores100(hash: string -> nat, funcsA: seq<seq<SourceToken>>, funcsB: seq<seq<SourceToken>>,
                             p: Print, q: Print, cfg: CompareConfig)
    requires p.Valid() && q.Valid() && p.tokenCount > 0
    requires p.tokens == Joined(hash, Kept(funcsA, cfg.minFuncTokens))
    requires q.tokens == Joined(hash, Kept(funcsB, cfg.minFuncTokens)) && p.tokens == q.tokens
    requires cfg.minFuncTokens >= AtLeastOne(cfg.minMatchTokens)
    ensures Compared(p, q, cfg).percent == 100.0
  {
    FingerprintSegmentsReach(hash, funcsA, cfg.minFuncTokens, cfg.minMatchTokens);
    EqualStreamsScore(p, q, cfg);
  }

  // ---------------------------------------------------------------- setting solution code aside

  /** The tokens under a tile turned into separators. */
  function Blanked(tokens: seq<Token>, tiles: seq<Tile>): (r: seq<Token>)
    ensures |r| == |tokens|
  {
    seq(|tokens|, k requires 0 <= k < |tokens| => if CoversA(tiles, k) then SEPARATOR else tokens[k])
  }

  lemma {:induction false} CountSplits(tokens: seq<Token>, marks: seq<bool>, rest: seq<Token>)
    requires |tokens| == |marks| == |rest|
    requires forall k :: 0 <= k < |tokens| && marks[k] ==> tokens[k] != SEPARATOR
    requires forall k :: 0 <= k < |tokens| ==> rest[k] == if marks[k] then SEPARATOR else tokens[k]
    ensures CountTokens(tokens) == CountMarked(marks) + CountTokens(rest)
  {
    var n := |tokens|;
    if n > 0 {
      CountSplits(tokens[..n - 1], marks[..n - 1], rest[..n - 1]);
      assert Matchable(tokens)[..n - 1] == Matchable(tokens[..n - 1]);
      assert Matchable(rest)[..n - 1] == Matchable(rest[..n - 1]);
    }
  }

  lemma BlankedIsCounted(tokens: seq<Token>, solution: seq<Token>, minMatch: int)
    ensures var tiles := Tiling.Tiling(tokens, solution, minMatch);
            CountTokens(Blanked(tokens, tiles)) == CountTokens(tokens) - TiledTokens(tiles)
  {
    var tiles := Tiling.Tiling(tokens, solution, minMatch);
    var s := TilingState(tokens, solution, minMatch);
    CoveredIsMatchable(s, AtLeastOne(minMatch));
    CountSplits(tokens, s.board.markedA, Blanked(tokens, tiles));
  }

  /** A fingerprint without the code it shares with the solution.  Setting code aside keeps the spans aligned
      and the token count equal to the number of non-separator tokens. */
  function WithoutSolution(p: Print, solution: Print, minMatch: int): (r: Print)
    ensures p.Valid() ==> r.Valid()
  {
    var tiles := Tiling.Tiling(p.tokens, solution.tokens, minMatch);
    BlankedIsCounted(p.tokens, solution.tokens, minMatch);
    Print(Blanked(p.tokens, tiles), p.spans, p.tokenCount - TiledTokens(tiles))
  }

  lemma BlankedRunIsOriginal(tokens: seq<Token>, others: seq<Token>, tiles: seq<Tile>, otherTiles: seq<Tile>, t: Tile)
    requires IsCommonRun(Blanked(tokens, tiles), Blanked(others, otherTiles), t)
    ensures IsCommonRun(tokens, others, t)
    ensures forall k: nat :: t.a <= k < t.a + t.length ==> !CoversA(tiles, k)
    ensures forall k: nat :: t.b <= k < t.b + t.length ==> !CoversA(otherTiles, k)
  {
    var a, b := Blanked(tokens, tiles), Blanked(others, otherTiles);
    forall i: nat | t.a <= i < t.a + t.length
      ensures !CoversA(tiles, i) && tokens[i] != SEPARATOR && tokens[i] == others[i - t.a + t.b]
    {
      assert a[i] != SEPARATOR && a[i] == b[i - t.a + t.b];
    }
    forall k: nat | t.b <= k < t.b + t.length ensures !CoversA(otherTiles, k) {
      var i := k - t.b + t.a;
      assert a[i] != SEPARATOR && a[i] == b[i - t.a + t.b];
    }
  }

  /** Nothing set aside is ever matched afterwards: each tile between two set-aside fingerprints lies on tokens that
      the solution did not claim on either side, and is still a common run of the two original files. */
  lemma SetAsideNeverMatches(p: Print, q: Print, solution: Print, minMatch: int, t: Tile)
    requires t in Tiling.Tiling(WithoutSolution(p, solution, minMatch).tokens, WithoutSolution(q, solution, minMatch).tokens, minMatch)
    ensures forall k: nat :: t.a <= k < t.a + t.length ==> !CoversA(Tiling.Tiling(p.tokens, solution.tokens, minMatch), k)
    ensures forall k: nat :: t.b <= k < t.b + t.length ==> !CoversA(Tiling.Tiling(q.tokens, solution.tokens, minMatch), k)
    ensures IsCommonRun(p.tokens, q.tokens, t)
  {
    TilesAreGenuineAndDisjoint(WithoutSolution(p, solution, minMatch).tokens, WithoutSolution(q, solution, minMatch).tokens, minMatch);
    BlankedRunIsOriginal(p.tokens, q.tokens, Tiling.Tiling(p.tokens, solution.tokens, minMatch),
                         Tiling.Tiling(q.tokens, solution.tokens, minMatch), t);
  }

  lemma NothingLeft(p: Print, q: Print, cfg: CompareConfig)
    requires p.Valid() && q.Valid() && p.tokenCount == 0
    ensures Compared(p, q, cfg).percent == 0.0
  {
    hide Tiling.Tiling;
    MatchedIsBounded(p.tokens, q.tokens, cfg.minMatchTokens);
    assert TiledTokens(Tiling.Tiling(p.tokens, q.tokens, cfg.minMatchTokens)) == 0;
  }

  /** A submission that is the solution, function for function, has nothing left to match anyone with. */
  lemma CopyOfSolutionMatchesNobody(p: Print, q: Print, solution: Print, cfg: CompareConfig)
    requires p.Valid() && q.Valid() && solution.Valid() && p.tokens == solution.tokens
    requires AllSegmentsReach(p.tokens, AtLeastOne(cfg.minMatchTokens))
    ensures WithoutSolution(p, solution, cfg.minMatchTokens).tokenCount == 0
    ensures Compared(WithoutSolution(p, solution, cfg.minMatchTokens), WithoutSolution(q, solution, cfg.minMatchTokens), cfg).percent == 0.0
  {
    var rest, other := WithoutSolution(p, solution, cfg.minMatchTokens), WithoutSolution(q, solution, cfg.minMatchTokens);
    hide AllSegmentsReach, Tiling.Tiling, Compared, CountTokens, TiledTokens, Blanked;
    EqualStreamsMatchIff(p.tokens, cfg.minMatchTokens);
    NothingLeft(rest, other, cfg);
  }

  /** plagiarism.go, lines 138-148: a private copy of the token array is blanked; the shared one is never written. */
  method WithoutSolutionCode(fp: FileFingerprint, solution: FileFingerprint, minMatch: int) returns (r: FileFingerprint)
    requires fp.Value().Valid()
    ensures fresh(r.tokens) && r.Value() == WithoutSolution(fp.Value(), solution.Value(), minMatch)
    ensures r.functionCount == fp.functionCount
  {
    var tokens := new Token[fp.tokens.Length](k requires 0 <= k < fp.tokens.Length reads fp.tokens => fp.tokens[k]);
    assert tokens[..] == fp.tokens[..];
    var tiles := GreedyStringTiling(fp.tokens[..], solution.tokens[..], minMatch);
    TilingReaches(fp.tokens[..], solution.tokens[..], minMatch);
    var blanked := BlankAll(tokens, tiles);
    r := FileFingerprint(tokens, fp.spans, fp.tokenCount - blanked, fp.functionCount);
  }

  lemma TilingReaches(a: seq<Token>, b: seq<Token>, minMatch: int)
    ensures forall t :: t in Tiling.Tiling(a, b, minMatch) ==> t.a + t.length <= |a|
  {
    TilesAreGenuineAndDisjoint(a, b, minMatch);
  }

  method BlankAll(tokens: array<Token>, tiles: seq<Tile>) returns (blanked: nat)
    requires forall t :: t in tiles ==> t.a + t.length <= tokens.Length
    modifies tokens
    ensures tokens[..] == Blanked(old(tokens[..]), tiles) && blanked == TiledTokens(tiles)
  {
    blanked := 0;
    for n := 0 to |tiles|
      invariant tokens[..] == Blanked(old(tokens[..]), tiles[..n]) && blanked == TiledTokens(tiles[..n])
    {
      assert tiles[..n + 1][..n] == tiles[..n];
      assert tiles[n] in tiles;
      BlankRange(tokens, tiles[n]);
      BlankedNext(old(tokens[..]), tiles, n);
      blanked := blanked + tiles[n].length;
    }
    assert tiles[..|tiles|] == tiles;
  }

  function BlankOne(tokens: seq<Token>, t: Tile): seq<Token> {
    seq(|tokens|, k requires 0 <= k < |tokens| => if t.a <= k < t.a + t.length then SEPARATOR else tokens[k])
  }

  method BlankRange(tokens: array<Token>, t: Tile)
    requires t.a + t.length <= tokens.Length
    modifies tokens
    ensures tokens[..] == BlankOne(old(tokens[..]), t)
  {
    for k := t.a to t.a + t.length
      invariant forall p :: 0 <= p < tokens.Length ==> tokens[p] == if t.a <= p < k then SEPARATOR else old(tokens[p])
    {
      tokens[k] := SEPARATOR;
    }
  }

  lemma BlankedNext(tokens: seq<Token>, tiles: seq<Tile>, n: nat)
    requires n < |tiles|
    ensures Blanked(tokens, tiles[..n + 1]) == BlankOne(Blanked(tokens, tiles[..n]), tiles[n])
  {
    var next, before := Blanked(tokens, tiles[..n + 1]), BlankOne(Blanked(tokens, tiles[..n]), tiles[n]);
    forall k | 0 <= k < |tokens| ensures next[k] == before[k] {
      CoversNext(tiles, n, k);
    }
  }

  lemma CoversNext(tiles: seq<Tile>, n: nat, k: nat)
    requires n < |tiles|
    ensures CoversA(tiles[..n + 1], k) <==> CoversA(tiles[..n], k) || tiles[n].a <= k < tiles[n].a + tiles[n].length
  {
    var next := tiles[..n + 1];
    assert next == tiles[..n] + [tiles[n]];
    assert forall t :: t in next <==> t in tiles[..n] || t == tiles[n];
    if CoversA(tiles[..n], k) {
      var t :| t in tiles[..n] && t.a <= k < t.a + t.length;
      assert t in next;
    }
    if tiles[n].a <= k < tiles[n].a + tiles[n].length {
      assert tiles[n] in next;
    }
    if CoversA(next, k) {
      var t :| t in next && t.a <= k < t.a + t.length;
      assert t in tiles[..n] || t == tiles[n];
    }
  }
}
