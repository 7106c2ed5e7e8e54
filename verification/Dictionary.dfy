/** Dictionary coverage: how much of a submission is made of known patterns, counting overlapping patterns once. */
module Dictionary {
  import opened Options
  import opened Tiling
  import opened TilingFacts
  import opened GreedyTiling
  import opened Fingerprint
  import opened Plagiarism

  const PATTERN_MIN_SHARE: real := 0.5

  /** An entry that reaches the match minimum; with a minimum of zero or less that may be one without any token. */
  datatype Entry = Entry(id: string, value: Print) {
    predicate Valid() {
      value.Valid()
    }
  }

  /** A share of no tokens at all is not a number. */
  datatype Match = Match(id: string, share: Option<real>, spans: seq<Span>)

  function TilesOf(tokens: seq<Token>, entry: Entry, minMatch: int): seq<Tile> {
    Tiling.Tiling(tokens, entry.value.tokens, minMatch)
  }

  /** The share of the pattern that the submission contains. */
  function PatternShare(tokens: seq<Token>, entry: Entry, minMatch: int): Option<real>
    requires entry.Valid()
  {
    Quotient(TiledTokens(TilesOf(tokens, entry, minMatch)), entry.value.tokenCount)
  }

  function Quotient(matched: nat, total: int): Option<real> {
    if total == 0 then None else Some(matched as real / total as real)
  }

  /** Nothing that is not a number is below half. */
  predicate BelowHalf(share: Option<real>) {
    share.Some? && share.value < PATTERN_MIN_SHARE
  }

  /** At least half of the pattern is there. */
  predicate Present(tokens: seq<Token>, entry: Entry, minMatch: int)
    requires entry.Valid()
  {
    !BelowHalf(PatternShare(tokens, entry, minMatch))
  }

  predicate AllValid(entries: seq<Entry>) {
    forall e :: 0 <= e < |entries| ==> entries[e].Valid()
  }

  /** Token k belongs to some pattern that is present. */
  predicate InSomePattern(tokens: seq<Token>, entries: seq<Entry>, minMatch: int, k: nat)
    requires AllValid(entries)
  {
    exists e :: 0 <= e < |entries| && Present(tokens, entries[e], minMatch) && CoversA(TilesOf(tokens, entries[e], minMatch), k)
  }

  ghost predicate IsUnion(covered: seq<bool>, tokens: seq<Token>, entries: seq<Entry>, minMatch: int)
    requires AllValid(entries)
  {
    |covered| == |tokens| && forall k: nat :: k < |tokens| ==> (covered[k] <==> InSomePattern(tokens, entries, minMatch, k))
  }

  lemma UnionGrows(before: seq<bool>, after: seq<bool>, tokens: seq<Token>, entries: seq<Entry>, minMatch: int, e: nat)
    requires AllValid(entries) && e < |entries| && IsUnion(before, tokens, entries[..e], minMatch)
    requires |after| == |before|
    requires forall k: nat :: k < |tokens| ==>
               (after[k] <==> before[k] || (Present(tokens, entries[e], minMatch) && CoversA(TilesOf(tokens, entries[e], minMatch), k)))
    ensures IsUnion(after, tokens, entries[..e + 1], minMatch)
  {
    hide Present, TilesOf;
    var next := entries[..e + 1];
    forall k: nat | k < |tokens| ensures after[k] <==> InSomePattern(tokens, next, minMatch, k) {
      if InSomePattern(tokens, entries[..e], minMatch, k) {
        var p :| 0 <= p < e && Present(tokens, entries[..e][p], minMatch) && CoversA(TilesOf(tokens, entries[..e][p], minMatch), k);
        assert next[p] == entries[..e][p];
      }
      if Present(tokens, entries[e], minMatch) && CoversA(TilesOf(tokens, entries[e], minMatch), k) {
        assert next[e] == entries[e];
      }
      if InSomePattern(tokens, next, minMatch, k) {
        var p :| 0 <= p < e + 1 && Present(tokens, next[p], minMatch) && CoversA(TilesOf(tokens, next[p], minMatch), k);
        assert p < e ==> next[p] == entries[..e][p];
      }
    }
  }

  /** ai_detection.go, lines 229-234: mark what the tiles of one pattern cover. */
  method Cover(covered: array<bool>, tiles: seq<Tile>)
    requires forall t :: t in tiles ==> t.a + t.length <= covered.Length
    modifies covered
    ensures forall k: nat :: k < covered.Length ==> (covered[k] <==> old(covered[k]) || CoversA(tiles, k))
  {
    for n := 0 to |tiles|
      invariant forall k: nat :: k < covered.Length ==> (covered[k] <==> old(covered[k]) || CoversA(tiles[..n], k))
    {
      assert tiles[n] in tiles;
      label L:
      MarkRange(covered, tiles[n].a, tiles[n].length);
      forall k: nat | k < covered.Length ensures covered[k] <==> old(covered[k]) || CoversA(tiles[..n + 1], k) {
        CoversNext(tiles, n, k);
        assert covered[..][k] == covered[k] && old@L(covered[..])[k] == old@L(covered[k]);
      }
    }
    assert tiles[..|tiles|] == tiles;
  }

  method CountCovered(covered: array<bool>) returns (count: nat)
    ensures count == CountMarked(covered[..])
  {
    count := 0;
    for k := 0 to covered.Length
      invariant count == CountMarked(covered[..k])
    {
      assert covered[..k + 1][..k] == covered[..k];
      if covered[k] {
        count := count + 1;
      }
    }
    assert covered[..covered.Length] == covered[..];
  }

  /** How many tokens of the submission some present pattern covers. */
  ghost predicate IsCoverage(count: nat, tokens: seq<Token>, entries: seq<Entry>, minMatch: int)
    requires AllValid(entries)
  {
    exists covered :: IsUnion(covered, tokens, entries, minMatch) && count == CountMarked(covered)
  }

  function SpansOf(spans: seq<Span>, tiles: seq<Tile>): seq<Span>
    requires forall t :: t in tiles ==> t.length > 0 && t.a + t.length <= |spans|
  {
    seq(|tiles|, k requires 0 <= k < |tiles| => assert tiles[k] in tiles; TileSpan(spans, tiles[k].a, tiles[k].length))
  }

  function RowOf(tokens: seq<Token>, spans: seq<Span>, entry: Entry, minMatch: int): Match
    requires entry.Valid() && |spans| == |tokens|
  {
    TilesAreGenuineAndDisjoint(tokens, entry.value.tokens, minMatch);
    Match(entry.id, PatternShare(tokens, entry, minMatch), SpansOf(spans, TilesOf(tokens, entry, minMatch)))
  }

  /** One row for each pattern that is present, among the first n entries. */
  function MatchedEntries(tokens: seq<Token>, spans: seq<Span>, entries: seq<Entry>, minMatch: int, n: nat): seq<Match>
    requires AllValid(entries) && n <= |entries| && |spans| == |tokens|
  {
    if n == 0 then []
    else
      var before := MatchedEntries(tokens, spans, entries, minMatch, n - 1);
      var entry := entries[n - 1];
      if Present(tokens, entry, minMatch) then before + [RowOf(tokens, spans, entry, minMatch)] else before
  }

  function PresentPlaces(tokens: seq<Token>, entries: seq<Entry>, minMatch: int, n: nat): set<nat>
    requires AllValid(entries) && n <= |entries|
  {
    set e: nat | e < n && Present(tokens, entries[e], minMatch)
  }

  lemma PresentNext(tokens: seq<Token>, entries: seq<Entry>, minMatch: int, n: nat)
    requires AllValid(entries) && n < |entries|
    ensures var before := PresentPlaces(tokens, entries, minMatch, n);
            PresentPlaces(tokens, entries, minMatch, n + 1) == (if Present(tokens, entries[n], minMatch) then before + {n} else before) && n !in before
  {
    hide Present;
  }

  /** The row of a present entry. */
  predicate IsRowOf(m: Match, tokens: seq<Token>, spans: seq<Span>, entry: Entry, minMatch: int)
    requires entry.Valid() && |spans| == |tokens|
  {
    Present(tokens, entry, minMatch) && m == RowOf(tokens, spans, entry, minMatch)
  }

  lemma NoneMatched(tokens: seq<Token>, spans: seq<Span>, entries: seq<Entry>, minMatch: int)
    requires AllValid(entries) && |spans| == |tokens|
    ensures MatchedEntries(tokens, spans, entries, minMatch, 0) == [] && PresentPlaces(tokens, entries, minMatch, 0) == {}
  {
    hide Present, RowOf;
  }

  /** The rows are those of the entries that are present... */
  lemma {:induction false} MatchedAre(tokens: seq<Token>, spans: seq<Span>, entries: seq<Entry>, minMatch: int, n: nat, m: Match)
    requires AllValid(entries) && n <= |entries| && |spans| == |tokens|
    ensures m in MatchedEntries(tokens, spans, entries, minMatch, n) <==> exists e :: 0 <= e < n && IsRowOf(m, tokens, spans, entries[e], minMatch)
  {
    hide Present, RowOf, IsRowOf, MatchedEntries;
    if n == 0 {
      NoneMatched(tokens, spans, entries, minMatch);
    } else {
      MatchedAre(tokens, spans, entries, minMatch, n - 1, m);
      MatchedNext(tokens, spans, entries, minMatch, n - 1, m);
    }
  }

  lemma MatchedNext(tokens: seq<Token>, spans: seq<Span>, entries: seq<Entry>, minMatch: int, n: nat, m: Match)
    requires AllValid(entries) && n < |entries| && |spans| == |tokens|
    ensures m in MatchedEntries(tokens, spans, entries, minMatch, n + 1) <==>
            m in MatchedEntries(tokens, spans, entries, minMatch, n) || IsRowOf(m, tokens, spans, entries[n], minMatch)
  {
    hide Present, RowOf;
  }

  /** ... and there is one for each of them. */
  lemma {:induction false} OneRowEach(tokens: seq<Token>, spans: seq<Span>, entries: seq<Entry>, minMatch: int, n: nat)
    requires AllValid(entries) && n <= |entries| && |spans| == |tokens|
    ensures |MatchedEntries(tokens, spans, entries, minMatch, n)| == |PresentPlaces(tokens, entries, minMatch, n)|
  {
    hide Present, MatchedEntries, PresentPlaces;
    if n == 0 {
      NoneMatched(tokens, spans, entries, minMatch);
    } else {
      OneRowEach(tokens, spans, entries, minMatch, n - 1);
      PresentNext(tokens, entries, minMatch, n - 1);
      MatchedCount(tokens, spans, entries, minMatch, n - 1);
    }
  }

  lemma MatchedCount(tokens: seq<Token>, spans: seq<Span>, entries: seq<Entry>, minMatch: int, n: nat)
    requires AllValid(entries) && n < |entries| && |spans| == |tokens|
    ensures |MatchedEntries(tokens, spans, entries, minMatch, n + 1)| ==
            |MatchedEntries(tokens, spans, entries, minMatch, n)| + if Present(tokens, entries[n], minMatch) then 1 else 0
  {
    hide Present, RowOf;
  }

  /** ai_detection.go, lines 221-241: one pattern. */
  method CompareToEntry(fp: FileFingerprint, entry: Entry, minMatch: int, covered: array<bool>) returns (row: Option<Match>)
    requires fp.Value().Valid() && entry.Valid() && covered.Length == fp.tokens.Length
    modifies covered
    ensures row == if Present(fp.tokens[..], entry, minMatch) then Some(RowOf(fp.tokens[..], fp.spans, entry, minMatch)) else None
    ensures forall k: nat :: k < covered.Length ==>
              (covered[..][k] <==> old(covered[..])[k] || (row.Some? && CoversA(TilesOf(fp.tokens[..], entry, minMatch), k)))
  {
    var tiles := GreedyStringTiling(fp.tokens[..], entry.value.tokens, minMatch);
    var matched := SumLengths(tiles);
    var share := Quotient(matched, entry.value.tokenCount);
    if BelowHalf(share) {
      return None;
    }
    TilesAreGenuineAndDisjoint(fp.tokens[..], entry.value.tokens, minMatch);
    Cover(covered, tiles);
    return Some(Match(entry.id, share, SpansOf(fp.spans, tiles)));
  }

  method CompareToDictionary(fp: FileFingerprint, entries: seq<Entry>, minMatch: int) returns (matches: seq<Match>, count: nat)
    requires fp.Value().Valid() && AllValid(entries)
    ensures IsCoverage(count, fp.tokens[..], entries, minMatch)
    ensures matches == MatchedEntries(fp.tokens[..], fp.spans, entries, minMatch, |entries|)
  {
    hide Present, TilesOf, RowOf;
    ghost var tokens := fp.tokens[..];
    var covered := new bool[fp.tokens.Length](_ => false);
    matches := [];
    for e := 0 to |entries|
      invariant fp.tokens[..] == tokens
      invariant IsUnion(covered[..], tokens, entries[..e], minMatch)
      invariant matches == MatchedEntries(tokens, fp.spans, entries, minMatch, e)
    {
      ghost var before := covered[..];
      var row := CompareToEntry(fp, entries[e], minMatch, covered);
      if row.Some? {
        matches := matches + [row.value];
      }
      UnionGrows(before, covered[..], tokens, entries, minMatch, e);
    }
    assert entries[..|entries|] == entries;
    count := CountCovered(covered);
  }

  /** An entry is listed exactly when at least half of its tokens are in the submission; its share is the matched tokens out of its own, and its
      spans are those of its tiles. */
  lemma ListedWhenHalfIsThere(tokens: seq<Token>, spans: seq<Span>, entry: Entry, minMatch: int)
    requires entry.Valid() && |spans| == |tokens|
    ensures var tiles := Tiling.Tiling(tokens, entry.value.tokens, minMatch);
            && (Present(tokens, entry, minMatch) <==> 2 * TiledTokens(tiles) >= CountTokens(entry.value.tokens))
            && var row := RowOf(tokens, spans, entry, minMatch);
               && row.id == entry.id && |row.spans| == |tiles|
               && (row.share.Some? <==> CountTokens(entry.value.tokens) > 0)
               && (row.share.Some? ==> row.share.value * CountTokens(entry.value.tokens) as real == TiledTokens(tiles) as real)
               && forall k :: 0 <= k < |tiles| ==>
                 && 0 < tiles[k].length && tiles[k].a + tiles[k].length <= |spans|
                 && row.spans[k].start == spans[tiles[k].a].start && row.spans[k].end == spans[tiles[k].a + tiles[k].length - 1].end
  {
    hide Tiling.Tiling, CountTokens, TiledTokens;
    var tiles := Tiling.Tiling(tokens, entry.value.tokens, minMatch);
    TilesAreGenuineAndDisjoint(tokens, entry.value.tokens, minMatch);
    QuotientIs(TiledTokens(tiles), entry.value.tokenCount);
    forall k | 0 <= k < |tiles| ensures 0 < tiles[k].length && tiles[k].a + tiles[k].length <= |spans| {
      assert tiles[k] in tiles;
    }
  }

  lemma QuotientIs(matched: nat, total: nat)
    ensures !BelowHalf(Quotient(matched, total)) <==> 2 * matched >= total
    ensures total > 0 ==> Quotient(matched, total).value * total as real == matched as real
  {
    if total > 0 {
      QuotientAgainst(matched as real, total as real, 0.5);
    }
  }

  /** An entry without tokens, which only a match minimum of zero or less lets through, is listed for every submission: its share is not a
      number, it has no spans, and it covers nothing. */
  lemma EmptyEntryIsAlwaysListed(tokens: seq<Token>, spans: seq<Span>, entry: Entry, minMatch: int)
    requires entry.Valid() && entry.value.tokenCount == 0 && |spans| == |tokens|
    ensures Present(tokens, entry, minMatch) && RowOf(tokens, spans, entry, minMatch) == Match(entry.id, None, [])
    ensures forall k: nat :: !CoversA(TilesOf(tokens, entry, minMatch), k)
  {
    hide Tiling.Tiling, CountTokens, TiledTokens;
    var tiles := TilesOf(tokens, entry, minMatch);
    TilesAreGenuineAndDisjoint(tokens, entry.value.tokens, minMatch);
    MatchedIsBounded(tokens, entry.value.tokens, minMatch);
    LastIsMeasured(tiles);
    assert tiles == [];
  }

  lemma LastIsMeasured(tiles: seq<Tile>)
    ensures tiles == [] || (tiles[|tiles| - 1] in tiles && TiledTokens(tiles) >= tiles[|tiles| - 1].length)
  {
  }

  /** Coverage is a share of the submission: overlapping patterns never push it over the number of its tokens. */
  lemma CoverageIsAShare(tokens: seq<Token>, entries: seq<Entry>, minMatch: int, count: nat)
    requires AllValid(entries) && IsCoverage(count, tokens, entries, minMatch)
    ensures count <= CountTokens(tokens)
    ensures CountTokens(tokens) > 0 ==> 0.0 <= count as real / CountTokens(tokens) as real <= 1.0
  {
    var covered :| IsUnion(covered, tokens, entries, minMatch) && count == CountMarked(covered);
    forall k: nat | k < |tokens| && covered[k] ensures tokens[k] != SEPARATOR {
      var e :| 0 <= e < |entries| && CoversA(TilesOf(tokens, entries[e], minMatch), k);
      CoveredIsToken(tokens, entries[e].value.tokens, minMatch, k);
    }
    MarksAgainstTokens(tokens, covered);
    if CountTokens(tokens) > 0 {
      QuotientBounds(count as real, CountTokens(tokens) as real);
    }
  }

  lemma CoveredIsToken(a: seq<Token>, b: seq<Token>, minMatch: int, k: nat)
    requires CoversA(Tiling.Tiling(a, b, minMatch), k)
    ensures k < |a| && a[k] != SEPARATOR
  {
    TilesAreGenuineAndDisjoint(a, b, minMatch);
    var t :| t in Tiling.Tiling(a, b, minMatch) && t.a <= k < t.a + t.length;
  }

  /** The count is determined by which tokens lie in a present pattern, not by the order of the entries. */
  lemma CoverageIgnoresOrder(tokens: seq<Token>, entries: seq<Entry>, others: seq<Entry>, minMatch: int, count: nat, otherCount: nat)
    requires AllValid(entries) && AllValid(others) && (forall e :: e in entries <==> e in others)
    requires IsCoverage(count, tokens, entries, minMatch) && IsCoverage(otherCount, tokens, others, minMatch)
    ensures count == otherCount
  {
    var covered :| IsUnion(covered, tokens, entries, minMatch) && count == CountMarked(covered);
    var otherCovered :| IsUnion(otherCovered, tokens, others, minMatch) && otherCount == CountMarked(otherCovered);
    forall k: nat | k < |tokens| ensures covered[k] == otherCovered[k] {
      if covered[k] {
        SameEntriesSamePatterns(tokens, entries, others, minMatch, k);
      }
      if otherCovered[k] {
        SameEntriesSamePatterns(tokens, others, entries, minMatch, k);
      }
    }
    assert covered == otherCovered;
  }

  lemma SameEntriesSamePatterns(tokens: seq<Token>, entries: seq<Entry>, others: seq<Entry>, minMatch: int, k: nat)
    requires AllValid(entries) && AllValid(others) && (forall e :: e in entries ==> e in others)
    requires InSomePattern(tokens, entries, minMatch, k)
    ensures InSomePattern(tokens, others, minMatch, k)
  {
    hide Present, TilesOf;
    var e :| 0 <= e < |entries| && Present(tokens, entries[e], minMatch) && CoversA(TilesOf(tokens, entries[e], minMatch), k);
    assert entries[e] in others;
    var o :| 0 <= o < |others| && others[o] == entries[e];
  }
}
