/** Local windows: each long enough file cut into consecutive blocks, and summaries over all of them. */
module Windows {
  import opened TokenCounts
  import opened Surprisals
  import TokenMetrics

  const WINDOW_TOKENS: nat := 128
  const MAX_WINDOWS: nat := 32

  /** Where the block that begins at start ends: 128 tokens on, or at the end if fewer than 64 would remain. */
  function BlockEnd(start: nat, n: nat): (end: nat)
    requires start < n
    ensures start < end <= n
  {
    var end := if start + WINDOW_TOKENS < n then start + WINDOW_TOKENS else n;
    if n - end < WINDOW_TOKENS / 2 then n else end
  }

  datatype Block = Block(start: nat, end: nat)

  function BlocksFrom(start: nat, n: nat): seq<Block>
    requires start <= n
    decreases n - start
  {
    if start == n then [] else [Block(start, BlockEnd(start, n))] + BlocksFrom(BlockEnd(start, n), n)
  }

  /** The blocks of a file with n tokens. */
  function Blocks(n: nat): seq<Block> {
    if n < WINDOW_TOKENS / 2 then [] else BlocksFrom(0, n)
  }

  /** Consecutive blocks from start to n, each of 64 to 191 tokens. */
  ghost predicate Tiles(blocks: seq<Block>, start: nat, n: nat) {
    if blocks == [] then start == n
    else blocks[0].start == start && start + 64 <= blocks[0].end <= start + 191 && Tiles(blocks[1..], blocks[0].end, n)
  }

  lemma {:induction false} BlocksFromTile(start: nat, n: nat)
    requires start == n || start + 64 <= n
    ensures Tiles(BlocksFrom(start, n), start, n)
    decreases n - start
  {
    if start < n {
      BlocksFromTile(BlockEnd(start, n), n);
    }
  }

  /** A file of at least 64 tokens is partitioned into consecutive blocks of 64 to 191 tokens; a shorter one has none. */
  lemma BlocksPartition(n: nat)
    ensures n >= 64 ==> Tiles(Blocks(n), 0, n) && Blocks(n) != []
    ensures n < 64 ==> Blocks(n) == []
  {
    if n >= 64 {
      BlocksFromTile(0, n);
    }
  }

  /** Every token of a partitioned file lies in one block and in no other. */
  lemma {:induction false} TokenHasOneBlock(blocks: seq<Block>, start: nat, n: nat, k: nat)
    requires Tiles(blocks, start, n) && start <= k < n
    ensures exists b :: 0 <= b < |blocks| && blocks[b].start <= k < blocks[b].end
    ensures forall b, c :: 0 <= b < c < |blocks| ==> !(blocks[b].start <= k < blocks[b].end && blocks[c].start <= k < blocks[c].end)
  {
    var rest := blocks[1..];
    LaterBlocksStartLater(rest, blocks[0].end, n);
    if k < blocks[0].end {
      assert blocks[0].start <= k < blocks[0].end;
      forall c | 0 < c < |blocks| ensures !(blocks[c].start <= k < blocks[c].end) {
        assert blocks[c] == rest[c - 1];
      }
    } else {
      TokenHasOneBlock(rest, blocks[0].end, n, k);
      var b :| 0 <= b < |rest| && rest[b].start <= k < rest[b].end;
      assert blocks[b + 1] == rest[b];
    }
    forall b, c | 0 <= b < c < |blocks|
      ensures !(blocks[b].start <= k < blocks[b].end && blocks[c].start <= k < blocks[c].end)
    {
      if b > 0 && k >= blocks[0].end {
        assert blocks[b] == rest[b - 1] && blocks[c] == rest[c - 1];
      } else if b > 0 {
        assert blocks[b] == rest[b - 1];
      }
    }
  }

  lemma {:induction false} LaterBlocksStartLater(blocks: seq<Block>, start: nat, n: nat)
    requires Tiles(blocks, start, n)
    ensures forall b :: 0 <= b < |blocks| ==> blocks[b].start >= start && blocks[b].start < blocks[b].end
  {
    if blocks != [] {
      LaterBlocksStartLater(blocks[1..], blocks[0].end, n);
      forall b | 0 < b < |blocks| ensures blocks[b].start >= start && blocks[b].start < blocks[b].end {
        assert blocks[b] == blocks[1..][b - 1];
      }
    }
  }

  // ---------------------------------------------------------------- windows of one submission

  datatype Window = Window(file: string, startLine: nat, endLine: nat, tokenCount: nat, mean: real, deviation: real)

  function WindowOf(tokens: seq<MetricToken>, values: seq<real>, b: Block): Window
    requires b.start < b.end <= |tokens| == |values|
  {
    var local := values[b.start..b.end];
    var mean := TokenMetrics.Mean(local);
    Window(tokens[b.start].file, tokens[b.start].line, tokens[b.end - 1].endLine, b.end - b.start, mean, SquaredDeviation(local, mean))
  }

  function WindowsFrom(tokens: seq<MetricToken>, values: seq<real>, start: nat): (r: seq<Window>)
    requires start <= |tokens| == |values|
    ensures |r| == |BlocksFrom(start, |tokens|)|
    decreases |tokens| - start
  {
    if start == |tokens| then []
    else
      var end := BlockEnd(start, |tokens|);
      [WindowOf(tokens, values, Block(start, end))] + WindowsFrom(tokens, values, end)
  }

  function FileWindows(tokens: seq<MetricToken>, values: seq<real>): (r: seq<Window>)
    requires |tokens| == |values|
    ensures |r| == |Blocks(|tokens|)|
  {
    if |tokens| < WINDOW_TOKENS / 2 then [] else WindowsFrom(tokens, values, 0)
  }

  predicate Aligned(files: Source, series: seq<seq<real>>) {
    |files| == |series| && forall i :: 0 <= i < |files| ==> |files[i]| == |series[i]|
  }

  /** The windows of the first n files. */
  function AllWindows(files: Source, series: seq<seq<real>>, n: nat): seq<Window>
    requires Aligned(files, series) && n <= |files|
  {
    if n == 0 then [] else AllWindows(files, series, n - 1) + FileWindows(files[n - 1], series[n - 1])
  }

  function Means(windows: seq<Window>): seq<real> {
    seq(|windows|, k requires 0 <= k < |windows| => windows[k].mean)
  }

  function Abs(x: real): real {
    if x < 0.0 then -x else x
  }

  /** The absolute changes between neighbouring values. */
  function Changes(means: seq<real>): real {
    if |means| < 2 then 0.0
    else Changes(means[..|means| - 1]) + Abs(means[|means| - 1] - means[|means| - 2])
  }

  /** Changes within each file; neighbours in different files are never compared. */
  function AllChanges(files: Source, series: seq<seq<real>>, n: nat): real
    requires Aligned(files, series) && n <= |files|
  {
    if n == 0 then 0.0
    else AllChanges(files, series, n - 1) + Changes(Means(FileWindows(files[n - 1], series[n - 1])))
  }

  /** One comparison less than windows, per file that has any. */
  function ChangeCount(files: Source, n: nat): nat
    requires n <= |files|
  {
    if n == 0 then 0
    else
      var here := |Blocks(|files[n - 1]|)|;
      ChangeCount(files, n - 1) + if here > 0 then here - 1 else 0
  }

  datatype Summary = Summary(windowCount: nat, mean: real, deviation: real, changeSum: real, changeCount: nat, windows: seq<Window>)

  predicate NonNegative(series: seq<seq<real>>) {
    forall i, k :: 0 <= i < |series| && 0 <= k < |series[i]| ==> series[i][k] >= 0.0
  }

  lemma {:induction false} TotalNonNegative(values: seq<real>)
    requires forall k :: 0 <= k < |values| ==> values[k] >= 0.0
    ensures Total(values) >= 0.0 && TokenMetrics.Mean(values) >= 0.0
  {
    if values != [] {
      TotalNonNegative(values[..|values| - 1]);
    }
  }

  /** ai_metrics.go, lines 265-273 and 280-282: the block that begins at start. */
  method MeasureWindow(tokens: seq<MetricToken>, values: seq<real>, start: nat) returns (end: nat, w: Window)
    requires start < |tokens| == |values| && forall k :: 0 <= k < |values| ==> values[k] >= 0.0
    ensures start < end <= |tokens| && end == BlockEnd(start, |tokens|)
    ensures w == WindowOf(tokens, values, Block(start, end)) && w.mean >= 0.0
  {
    end := if start + WINDOW_TOKENS < |tokens| then start + WINDOW_TOKENS else |tokens|;
    if |tokens| - end < WINDOW_TOKENS / 2 {
      end := |tokens|;
    }
    var local := LocalMoments(values[start..end]);
    w := Window(tokens[start].file, tokens[start].line, tokens[end - 1].endLine, end - start, local.mean, local.m2);
  }

  lemma NextWindow(tokens: seq<MetricToken>, values: seq<real>, here: seq<Window>, start: nat)
    requires start < |tokens| == |values|
    ensures var end := BlockEnd(start, |tokens|);
            here + WindowsFrom(tokens, values, start)
            == (here + [WindowOf(tokens, values, Block(start, end))]) + WindowsFrom(tokens, values, end)
  {
  }

  /** ai_metrics.go, lines 264-284: the windows of one file. */
  method FileLoop(tokens: seq<MetricToken>, values: seq<real>, windowsBefore: seq<Window>, moments: Moments,
                  changeSumBefore: real, changeCountBefore: nat)
    returns (windows: seq<Window>, changeSum: real, changeCount: nat)
    requires |tokens| == |values| >= WINDOW_TOKENS / 2 && forall k :: 0 <= k < |values| ==> values[k] >= 0.0
    requires moments.Summarizes(Means(windowsBefore))
    modifies moments
    ensures windows == windowsBefore + FileWindows(tokens, values)
    ensures moments.Summarizes(Means(windows))
    ensures changeSum == changeSumBefore + Changes(Means(FileWindows(tokens, values)))
    ensures changeCount == changeCountBefore + |Blocks(|tokens|)| - 1
  {
    var previous := -1.0;
    changeSum, changeCount := changeSumBefore, changeCountBefore;
    var here: seq<Window> := [];
    FirstWindow(tokens, values, windowsBefore);
    hide *;
    var start := 0;
    while start < |tokens|
      invariant start <= |tokens|
      invariant here + WindowsFrom(tokens, values, start) == FileWindows(tokens, values)
      invariant moments.Summarizes(Means(windowsBefore + here))
      invariant if here == [] then previous == -1.0 && start == 0 else previous == here[|here| - 1].mean >= 0.0
      invariant changeSum == changeSumBefore + Changes(Means(here))
      invariant changeCount == changeCountBefore + if here == [] then 0 else |here| - 1
      decreases |tokens| - start
    {
      var end, w := MeasureWindow(tokens, values, start);
      moments.Add(w.mean, Means(windowsBefore + here));
      AppendWindow(windowsBefore, here, w);
      NextWindow(tokens, values, here, start);
      if previous >= 0.0 {
        changeSum := changeSum + Abs(w.mean - previous);
        changeCount := changeCount + 1;
      }
      previous := w.mean;
      here := here + [w];
      start := end;
    }
    NoMoreWindows(tokens, values, here);
    windows := windowsBefore + here;
  }

  lemma FirstWindow(tokens: seq<MetricToken>, values: seq<real>, windowsBefore: seq<Window>)
    requires |tokens| == |values| >= WINDOW_TOKENS / 2
    ensures [] + WindowsFrom(tokens, values, 0) == FileWindows(tokens, values)
    ensures windowsBefore + [] == windowsBefore && Changes(Means([])) == 0.0
    ensures |FileWindows(tokens, values)| == |Blocks(|tokens|)| > 0
  {
  }

  lemma NoMoreWindows(tokens: seq<MetricToken>, values: seq<real>, here: seq<Window>)
    requires |tokens| == |values|
    ensures here + WindowsFrom(tokens, values, |tokens|) == here
  {
  }

  lemma AppendWindow(before: seq<Window>, here: seq<Window>, w: Window)
    ensures Means(before + here) + [w.mean] == Means(before + (here + [w]))
    ensures Changes(Means(here + [w])) == Changes(Means(here)) + if here == [] then 0.0 else Abs(w.mean - here[|here| - 1].mean)
  {
    var means := Means(here + [w]);
    assert means[..|here|] == Means(here);
  }

  method LocalMoments(values: seq<real>) returns (local: Moments)
    requires forall k :: 0 <= k < |values| ==> values[k] >= 0.0
    ensures fresh(local) && local.mean == TokenMetrics.Mean(values) >= 0.0 && local.m2 == SquaredDeviation(values, local.mean)
  {
    local := new Moments();
    for k := 0 to |values|
      invariant fresh(local) && local.Summarizes(values[..k])
    {
      local.Add(values[k], values[..k]);
      assert values[..k + 1] == values[..k] + [values[k]];
    }
    assert values[..|values|] == values;
    TokenMetrics.MeanIs(values, local.n, local.mean);
    TotalNonNegative(values);
  }

  /** The surprisal under a window: its mean times its length. */
  function Mass(w: Window): real {
    w.mean * w.tokenCount as real
  }

  function Weighed(windows: seq<Window>): real {
    if windows == [] then 0.0 else Weighed(windows[..|windows| - 1]) + Mass(windows[|windows| - 1])
  }

  function TokensIn(windows: seq<Window>): nat {
    if windows == [] then 0 else TokensIn(windows[..|windows| - 1]) + windows[|windows| - 1].tokenCount
  }

  /** The window is about this block: its tokens, its lines and its surprisal. */
  predicate IsAbout(w: Window, tokens: seq<MetricToken>, values: seq<real>, b: Block) {
    && b.start < b.end <= |tokens| == |values|
    && w.tokenCount == b.end - b.start && w.mean * w.tokenCount as real == Total(values[b.start..b.end])
    && w.file == tokens[b.start].file && w.startLine == tokens[b.start].line && w.endLine == tokens[b.end - 1].endLine
    && w.deviation == SquaredDeviation(values[b.start..b.end], w.mean)
  }

  lemma {:induction false} TotalAppends(a: seq<real>, b: seq<real>)
    ensures Total(a + b) == Total(a) + Total(b)
  {
    if b == [] {
      assert a + b == a;
    } else {
      TotalAppends(a, b[..|b| - 1]);
      assert (a + b)[..|a + b| - 1] == a + b[..|b| - 1];
    }
  }

  lemma {:induction false} SumsPrepend(w: Window, windows: seq<Window>)
    ensures Weighed([w] + windows) == Mass(w) + Weighed(windows) && TokensIn([w] + windows) == w.tokenCount + TokensIn(windows)
  {
    hide Mass;
    var all := [w] + windows;
    if windows == [] {
      assert all[..0] == [];
    } else {
      SumsPrepend(w, windows[..|windows| - 1]);
      assert all[..|all| - 1] == [w] + windows[..|windows| - 1];
    }
  }

  lemma WindowIs(tokens: seq<MetricToken>, values: seq<real>, b: Block)
    requires b.start < b.end <= |tokens| == |values|
    ensures IsAbout(WindowOf(tokens, values, b), tokens, values, b)
    ensures Mass(WindowOf(tokens, values, b)) == Total(values[b.start..b.end]) && WindowOf(tokens, values, b).tokenCount == b.end - b.start
  {
    hide Total, SquaredDeviation;
    var local := values[b.start..b.end];
    var n := |local| as real;
    assert TokenMetrics.Mean(local) == Total(local) / n;
    assert Total(local) / n * n == Total(local);
  }

  lemma {:induction false} WindowsFromConserve(tokens: seq<MetricToken>, values: seq<real>, start: nat)
    requires start <= |tokens| == |values|
    ensures Weighed(WindowsFrom(tokens, values, start)) == Total(values[start..])
    ensures TokensIn(WindowsFrom(tokens, values, start)) == |tokens| - start
    decreases |tokens| - start
  {
    hide WindowOf, BlockEnd, Mass, Weighed, TokensIn, IsAbout, Total;
    if start < |tokens| {
      var end := BlockEnd(start, |tokens|);
      var w := WindowOf(tokens, values, Block(start, end));
      WindowsFromConserve(tokens, values, end);
      WindowIs(tokens, values, Block(start, end));
      SumsPrepend(w, WindowsFrom(tokens, values, end));
      TotalAppends(values[start..end], values[end..]);
      assert values[start..] == values[start..end] + values[end..];
    } else {
      NothingWeighs();
      assert values[start..] == [];
    }
  }

  lemma NothingWeighs()
    ensures Weighed([]) == 0.0 && TokensIn([]) == 0 && Total([]) == 0.0
  {
  }

  /** The windows of a long enough file hold all its tokens and all its surprisal, and each is about its block. */
  lemma WindowsConserve(tokens: seq<MetricToken>, values: seq<real>)
    requires |tokens| == |values| >= 64
    ensures Weighed(FileWindows(tokens, values)) == Total(values) && TokensIn(FileWindows(tokens, values)) == |tokens|
    ensures forall k :: 0 <= k < |Blocks(|tokens|)| ==> IsAbout(FileWindows(tokens, values)[k], tokens, values, Blocks(|tokens|)[k])
  {
    hide IsAbout, Weighed, TokensIn, Total, BlocksFrom, WindowsFrom;
    WindowsFromConserve(tokens, values, 0);
    assert values[0..] == values;
    WindowsOfBlocks(tokens, values, 0);
  }

  lemma {:induction false} WindowsOfBlocks(tokens: seq<MetricToken>, values: seq<real>, start: nat)
    requires start <= |tokens| == |values|
    ensures forall k :: 0 <= k < |BlocksFrom(start, |tokens|)| ==> IsAbout(WindowsFrom(tokens, values, start)[k], tokens, values, BlocksFrom(start, |tokens|)[k])
    decreases |tokens| - start
  {
    hide WindowOf, BlockEnd, IsAbout;
    if start < |tokens| {
      var end := BlockEnd(start, |tokens|);
      WindowsOfBlocks(tokens, values, end);
      WindowIs(tokens, values, Block(start, end));
    }
  }

  // ---------------------------------------------------------------- which windows are shown

  /** A strict order in which windows may tie: what is not before something is not before anything that comes no later. */
  ghost predicate WeakOrder(before: (Window, Window) -> bool) {
    && (forall w, u :: before(w, u) ==> !before(u, w))
    && (forall w, u, v :: !before(w, u) && !before(u, v) ==> !before(w, v))
  }

  predicate Ordered(windows: seq<Window>, before: (Window, Window) -> bool) {
    forall i, j :: 0 <= i < j < |windows| ==> !before(windows[j], windows[i])
  }

  /** Behind everything that ties with it. */
  function InsertWindow(w: Window, windows: seq<Window>, before: (Window, Window) -> bool): (r: seq<Window>)
    ensures multiset(r) == multiset(windows) + multiset{w} && |r| == |windows| + 1
  {
    if windows == [] || !before(w, windows[|windows| - 1]) then windows + [w]
    else
      assert windows == windows[..|windows| - 1] + [windows[|windows| - 1]];
      InsertWindow(w, windows[..|windows| - 1], before) + [windows[|windows| - 1]]
  }

  /** The stable sort. */
  function Sorted(windows: seq<Window>, before: (Window, Window) -> bool): (r: seq<Window>)
    ensures |r| == |windows|
  {
    if windows == [] then [] else InsertWindow(windows[|windows| - 1], Sorted(windows[..|windows| - 1], before), before)
  }

  lemma {:induction false} InsertWindowKeeps(w: Window, windows: seq<Window>, before: (Window, Window) -> bool)
    requires WeakOrder(before) && Ordered(windows, before)
    ensures Ordered(InsertWindow(w, windows, before), before)
  {
    var n := |windows|;
    if n > 0 && before(w, windows[n - 1]) {
      var init, last := InsertWindow(w, windows[..n - 1], before), windows[n - 1];
      InsertWindowKeeps(w, windows[..n - 1], before);
      forall i | 0 <= i < |init| ensures !before(last, init[i]) {
        assert init[i] in multiset(init);
        assert init[i] == w || init[i] in windows[..n - 1];
      }
    } else if n > 0 {
      forall i | 0 <= i < n ensures !before(w, windows[i]) {
        assert !before(w, windows[n - 1]) && (i < n - 1 ==> !before(windows[n - 1], windows[i]));
      }
    }
  }

  lemma {:induction false} SortedIsOrdered(windows: seq<Window>, before: (Window, Window) -> bool)
    requires WeakOrder(before)
    ensures Ordered(Sorted(windows, before), before) && multiset(Sorted(windows, before)) == multiset(windows)
  {
    hide WeakOrder, Ordered;
    if windows == [] {
      NoneIsOrdered(before);
    } else {
      var init, last := windows[..|windows| - 1], windows[|windows| - 1];
      SortedIsOrdered(init, before);
      InsertWindowKeeps(last, Sorted(init, before), before);
      assert windows == init + [last];
    }
  }

  lemma NoneIsOrdered(before: (Window, Window) -> bool)
    ensures Ordered([], before)
  {
  }

  /** The sorting that the code leaves to its library, as insertions in the order of the list. */
  method Sort(windows: seq<Window>, before: (Window, Window) -> bool) returns (sorted: seq<Window>)
    ensures sorted == Sorted(windows, before)
  {
    sorted := [];
    for k := 0 to |windows|
      invariant sorted == Sorted(windows[..k], before)
    {
      assert windows[..k + 1][..k] == windows[..k];
      sorted := InsertWindow(windows[k], sorted, before);
    }
    assert windows[..|windows|] == windows;
  }

  /** How far a window's shown value lies from the mean of all windows. */
  function Distance(w: Window, center: real, round3: real -> real): real {
    Abs(round3(w.mean) - center)
  }

  function Farther(center: real, round3: real -> real): (Window, Window) -> bool {
    (w, u) => Distance(w, center, round3) > Distance(u, center, round3)
  }

  predicate Below(a: string, b: string) {
    b != "" && (a == "" || a[0] < b[0] || (a[0] == b[0] && Below(a[1..], b[1..])))
  }

  /** By file and then by line. */
  predicate Earlier(w: Window, u: Window) {
    if w.file != u.file then Below(w.file, u.file) else w.startLine < u.startLine
  }

  lemma {:induction false} BelowIsTotal(a: string, b: string)
    ensures a == b ==> !Below(a, b)
    ensures a != b ==> (Below(a, b) <==> !Below(b, a))
  {
    if a != "" && b != "" && a[0] == b[0] {
      BelowIsTotal(a[1..], b[1..]);
      assert a == [a[0]] + a[1..] && b == [b[0]] + b[1..];
    }
  }

  lemma {:induction false} BelowIsTransitive(a: string, b: string, c: string)
    requires Below(a, b) && Below(b, c)
    ensures Below(a, c)
  {
    if a != "" && a[0] == b[0] == c[0] {
      BelowIsTransitive(a[1..], b[1..], c[1..]);
    }
  }

  lemma EarlierIsOrder()
    ensures WeakOrder(Earlier)
  {
    forall w, u | Earlier(w, u) ensures !Earlier(u, w) {
      BelowIsTotal(w.file, u.file);
    }
    forall w, u, v | !Earlier(w, u) && !Earlier(u, v) ensures !Earlier(w, v) {
      BelowIsTotal(w.file, u.file);
      BelowIsTotal(u.file, v.file);
      BelowIsTotal(w.file, v.file);
      if w.file != u.file && u.file != v.file {
        BelowIsTransitive(v.file, u.file, w.file);
      }
    }
  }

  lemma FartherIsOrder(center: real, round3: real -> real)
    ensures WeakOrder(Farther(center, round3))
  {
    hide Distance;
  }

  /** All windows if they are few, otherwise the 32 that lie farthest from the mean. */
  function Trimmed(windows: seq<Window>, center: real, round3: real -> real): seq<Window> {
    if |windows| > MAX_WINDOWS then Sorted(windows, Farther(center, round3))[..MAX_WINDOWS] else windows
  }

  function Shown(windows: seq<Window>, center: real, round3: real -> real): seq<Window> {
    Sorted(Trimmed(windows, center, round3), Earlier)
  }

  /** `kept` is some of the windows, at most 32, and none of those left out lies farther from the mean. */
  ghost predicate IsTrim(windows: seq<Window>, kept: seq<Window>, center: real, round3: real -> real) {
    && |kept| == (if |windows| > MAX_WINDOWS then MAX_WINDOWS else |windows|)
    && exists dropped: seq<Window> ::
      && multiset(windows) == multiset(kept) + multiset(dropped)
      && forall w, u :: w in kept && u in dropped ==> Distance(w, center, round3) >= Distance(u, center, round3)
  }

  lemma TrimmedIsTrim(windows: seq<Window>, center: real, round3: real -> real)
    ensures IsTrim(windows, Trimmed(windows, center, round3), center, round3)
  {
    if |windows| <= MAX_WINDOWS {
      NothingDropped(windows, center, round3);
    } else {
      FartherIsOrder(center, round3);
      SortedIsOrdered(windows, Farther(center, round3));
      hide Distance, Sorted, WeakOrder, Ordered, IsTrim, Farther;
      CutIsTrim(windows, Sorted(windows, Farther(center, round3)), center, round3);
    }
  }

  lemma NothingDropped(windows: seq<Window>, center: real, round3: real -> real)
    requires |windows| <= MAX_WINDOWS
    ensures IsTrim(windows, windows, center, round3)
  {
    hide Distance;
    var none: seq<Window> := [];
    assert multiset(windows) == multiset(windows) + multiset(none);
  }

  lemma CutIsTrim(windows: seq<Window>, sorted: seq<Window>, center: real, round3: real -> real)
    requires |sorted| == |windows| > MAX_WINDOWS && multiset(sorted) == multiset(windows) && Ordered(sorted, Farther(center, round3))
    ensures IsTrim(windows, sorted[..MAX_WINDOWS], center, round3)
  {
    hide Distance;
    var kept, dropped := sorted[..MAX_WINDOWS], sorted[MAX_WINDOWS..];
    assert sorted == kept + dropped;
    forall w, u | w in kept && u in dropped ensures Distance(w, center, round3) >= Distance(u, center, round3) {
      FirstIsFarther(sorted, center, round3, w, u);
    }
    hide Ordered;
    assert multiset(windows) == multiset(kept) + multiset(dropped);
  }

  lemma FirstIsFarther(sorted: seq<Window>, center: real, round3: real -> real, w: Window, u: Window)
    requires |sorted| > MAX_WINDOWS && Ordered(sorted, Farther(center, round3)) && w in sorted[..MAX_WINDOWS] && u in sorted[MAX_WINDOWS..]
    ensures Distance(w, center, round3) >= Distance(u, center, round3)
  {
    hide Distance;
    var i :| 0 <= i < MAX_WINDOWS && sorted[..MAX_WINDOWS][i] == w;
    var j :| 0 <= j < |sorted| - MAX_WINDOWS && sorted[MAX_WINDOWS..][j] == u;
    assert sorted[i] == w && sorted[MAX_WINDOWS + j] == u;
    assert !Farther(center, round3)(sorted[MAX_WINDOWS + j], sorted[i]);
  }

  /** The list that is shown is ordered by file and line, and it is all windows or the 32 farthest from the mean. */
  lemma ShownIsTrim(windows: seq<Window>, center: real, round3: real -> real)
    ensures Ordered(Shown(windows, center, round3), Earlier) && IsTrim(windows, Shown(windows, center, round3), center, round3)
  {
    var kept := Trimmed(windows, center, round3);
    TrimmedIsTrim(windows, center, round3);
    EarlierIsOrder();
    SortedIsOrdered(kept, Earlier);
    hide Trimmed, WeakOrder, Ordered, Earlier, Distance;
    SameKept(windows, kept, Sorted(kept, Earlier), center, round3);
  }

  lemma SameKept(windows: seq<Window>, kept: seq<Window>, other: seq<Window>, center: real, round3: real -> real)
    requires IsTrim(windows, kept, center, round3) && multiset(kept) == multiset(other) && |kept| == |other|
    ensures IsTrim(windows, other, center, round3)
  {
    hide Distance;
    forall w | w in other ensures w in kept {
      assert w in multiset(other);
    }
  }

  /** ai_metrics.go, lines 264-296: the windows of all files, with their moments and the changes between neighbours. */
  method CollectWindows(files: Source, series: seq<seq<real>>) returns (windows: seq<Window>, moments: Moments, changeSum: real, changeCount: nat)
    requires Aligned(files, series) && NonNegative(series)
    ensures windows == AllWindows(files, series, |files|) && fresh(moments) && moments.Summarizes(Means(windows))
    ensures changeSum == AllChanges(files, series, |files|) && changeCount == ChangeCount(files, |files|)
  {
    hide FileWindows, Changes, Blocks, Moments.Summarizes;
    windows, changeSum, changeCount := [], 0.0, 0;
    moments := new Moments();
    assert Means(windows) == [];
    for i := 0 to |files|
      invariant fresh(moments)
      invariant windows == AllWindows(files, series, i) && moments.Summarizes(Means(windows))
      invariant changeSum == AllChanges(files, series, i) && changeCount == ChangeCount(files, i)
    {
      ShortFiles(files[i], series[i]);
      OneMoreFile(files, series, i);
      hide Means, AllWindows, AllChanges, ChangeCount;
      if |files[i]| >= WINDOW_TOKENS / 2 {
        windows, changeSum, changeCount := FileLoop(files[i], series[i], windows, moments, changeSum, changeCount);
      } else {
        assert windows + [] == windows;
      }
    }
  }

  /** ai_metrics.go, lines 255-310.  Counts and summaries cover every window; only the list that is shown is trimmed. */
  method SetLocalTokenWindows(files: Source, series: seq<seq<real>>, round3: real -> real) returns (s: Summary)
    requires Aligned(files, series) && NonNegative(series)
    ensures var all := AllWindows(files, series, |files|);
            && s.windowCount == |all|
            && s.mean == TokenMetrics.Mean(Means(all)) && s.deviation == SquaredDeviation(Means(all), s.mean)
            && s.changeSum == AllChanges(files, series, |files|) && s.changeCount == ChangeCount(files, |files|)
            && s.windows == Shown(all, s.mean, round3)
  {
    hide AllWindows, AllChanges, ChangeCount, SquaredDeviation, TokenMetrics.Mean, Sorted, Farther, Earlier;
    var windows, moments, changeSum, changeCount := CollectWindows(files, series);
    TokenMetrics.MeanIs(Means(windows), moments.n, moments.mean);
    var count, shown := |windows|, windows;
    if |windows| > MAX_WINDOWS {
      shown := Sort(windows, Farther(moments.mean, round3));
      shown := shown[..MAX_WINDOWS];
    }
    shown := Sort(shown, Earlier);
    s := Summary(count, moments.mean, moments.m2, changeSum, changeCount, shown);
  }

  lemma OneMoreFile(files: Source, series: seq<seq<real>>, i: nat)
    requires Aligned(files, series) && i < |files|
    ensures AllWindows(files, series, i + 1) == AllWindows(files, series, i) + FileWindows(files[i], series[i])
    ensures AllChanges(files, series, i + 1) == AllChanges(files, series, i) + Changes(Means(FileWindows(files[i], series[i])))
    ensures ChangeCount(files, i + 1) == ChangeCount(files, i) + if |Blocks(|files[i]|)| > 0 then |Blocks(|files[i]|)| - 1 else 0
  {
    hide FileWindows, Changes, Means, Blocks;
  }

  lemma ShortFiles(tokens: seq<MetricToken>, values: seq<real>)
    requires |tokens| == |values|
    ensures |tokens| < WINDOW_TOKENS / 2 ==>
              FileWindows(tokens, values) == [] && Changes(Means(FileWindows(tokens, values))) == 0.0 && Blocks(|tokens|) == []
    ensures |tokens| >= WINDOW_TOKENS / 2 ==> |Blocks(|tokens|)| > 0
  {
  }
}
