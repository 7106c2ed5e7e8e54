/** The similarity report of one cohort: the solution is compared first and set aside, then every pair is compared. */
module Similarity {
  import opened Options
  import opened Tiling
  import opened Fingerprint
  import opened Pairing
  import opened Plagiarism

  datatype SubmissionPrint = Failed | Printed(fp: FileFingerprint)

  type ValidPrint = p: Print | p.Valid() witness Print([], [], 0)

  datatype Item = Item(id: string, value: ValidPrint)

  datatype Pair = Pair(a: string, b: string, result: PairResult)

  datatype Report = Report(solutionPairs: Option<seq<Pair>>, pairs: seq<Pair>)

  datatype Outcome = Ok(report: Report) | NoFingerprints(report: Report, failures: nat)

  // ---------------------------------------------------------------- the report by definition

  ghost function Arrays(prints: seq<SubmissionPrint>): set<array<Token>> {
    set i | 0 <= i < |prints| && prints[i].Printed? :: prints[i].fp.tokens
  }

  ghost predicate AllValid(prints: seq<SubmissionPrint>)
    reads Arrays(prints)
  {
    forall k :: 0 <= k < |prints| && prints[k].Printed? ==> prints[k].fp.Value().Valid()
  }

  /** The first n submissions that have a fingerprint, in submission order. */
  ghost function Usable(ids: seq<string>, prints: seq<SubmissionPrint>, n: nat): seq<Item>
    requires n <= |ids| == |prints| && AllValid(prints)
    reads Arrays(prints)
  {
    if n == 0 then []
    else
      var before := Usable(ids, prints, n - 1);
      if prints[n - 1].Failed? then before else before + [Item(ids[n - 1], prints[n - 1].fp.Value())]
  }

  /** Comparing two submissions. */
  function Against(cfg: CompareConfig): (Item, Item) -> Pair {
    (x: Item, y: Item) => Pair(x.id, y.id, Compared(x.value, y.value, cfg))
  }

  /** Comparing a submission with the solution. */
  function AgainstSolution(solution: ValidPrint, cfg: CompareConfig): Item -> Pair {
    (x: Item) => Pair(x.id, "solution", Compared(x.value, solution, cfg))
  }

  /** Setting the solution's code aside. */
  function WithoutIt(solution: Print, cfg: CompareConfig): Item -> Item {
    (x: Item) => Item(x.id, WithoutSolution(x.value, solution, cfg.minMatchTokens))
  }

  function Prepared(items: seq<Item>, solution: Option<ValidPrint>, cfg: CompareConfig): seq<Item> {
    if solution.Some? && solution.value.tokenCount > 0 then MapAll(items, WithoutIt(solution.value, cfg)) else items
  }

  predicate Descending(pairs: seq<Pair>) {
    forall i, j :: 0 <= i < j < |pairs| ==> pairs[i].result.percent >= pairs[j].result.percent
  }

  // ---------------------------------------------------------------- the final sort

  function InsertPair(p: Pair, pairs: seq<Pair>): (r: seq<Pair>)
    ensures multiset(r) == multiset(pairs) + multiset{p}
  {
    if pairs == [] || pairs[|pairs| - 1].result.percent >= p.result.percent then pairs + [p]
    else
      assert pairs == pairs[..|pairs| - 1] + [pairs[|pairs| - 1]];
      InsertPair(p, pairs[..|pairs| - 1]) + [pairs[|pairs| - 1]]
  }

  lemma {:induction false} InsertKeepsDescending(p: Pair, pairs: seq<Pair>)
    requires Descending(pairs)
    ensures Descending(InsertPair(p, pairs))
  {
    var n := |pairs|;
    if n > 0 && pairs[n - 1].result.percent < p.result.percent {
      var init := InsertPair(p, pairs[..n - 1]);
      InsertKeepsDescending(p, pairs[..n - 1]);
      forall i | 0 <= i < |init| ensures init[i].result.percent >= pairs[n - 1].result.percent {
        assert init[i] in multiset(init);
        assert init[i] == p || init[i] in pairs[..n - 1];
      }
    }
  }

  method SortPairs(pairs: seq<Pair>) returns (sorted: seq<Pair>)
    ensures multiset(sorted) == multiset(pairs) && Descending(sorted)
  {
    sorted := [];
    for k := 0 to |pairs|
      invariant multiset(sorted) == multiset(pairs[..k]) && Descending(sorted)
    {
      assert pairs[..k + 1] == pairs[..k] + [pairs[k]];
      InsertKeepsDescending(pairs[k], sorted);
      sorted := InsertPair(pairs[k], sorted);
    }
    assert pairs[..|pairs|] == pairs;
  }

  // ---------------------------------------------------------------- the code

  datatype FingerprintItem = FingerprintItem(id: string, fp: FileFingerprint) {
    ghost predicate Is(item: Item)
      reads fp.tokens
    {
      id == item.id && fp.Value() == item.value
    }
  }

  /** plagiarism.go, lines 69-77. */
  method Collect(ids: seq<string>, prints: seq<SubmissionPrint>, ghost items: seq<Item>)
    returns (fps: seq<FingerprintItem>, failures: nat)
    requires |ids| == |prints| && AllValid(prints) && items == Usable(ids, prints, |prints|)
    ensures |fps| == |items| && failures + |fps| == |prints|
    ensures forall k :: 0 <= k < |fps| ==> fps[k].Is(items[k])
  {
    fps, failures := [], 0;
    for i := 0 to |prints|
      invariant |fps| == |Usable(ids, prints, i)| && failures + |fps| == i
      invariant forall k :: 0 <= k < |fps| ==> fps[k].Is(Usable(ids, prints, i)[k])
    {
      match prints[i]
      case Printed(fp) => fps := fps + [FingerprintItem(ids[i], fp)];
      case Failed => failures := failures + 1;
    }
  }

  method CompareItems(x: FingerprintItem, y: FingerprintItem, ghost xi: Item, ghost yi: Item, cfg: CompareConfig)
    returns (pair: Pair)
    requires x.Is(xi) && y.Is(yi)
    ensures pair == Against(cfg)(xi, yi)
  {
    var result := CompareFiles(x.fp, y.fp, cfg);
    pair := Pair(x.id, y.id, result);
  }

  /** plagiarism.go, lines 82-87: the solution pair of a submission is taken before its code is set aside. */
  method CompareThenSetAside(x: FingerprintItem, ghost xi: Item, solution: FileFingerprint, ghost s: ValidPrint, cfg: CompareConfig)
    returns (aside: FingerprintItem, pair: Pair)
    requires x.Is(xi) && solution.Value() == s
    ensures pair == AgainstSolution(s, cfg)(xi)
    ensures fresh(aside.fp.tokens) && aside.Is(WithoutIt(s, cfg)(xi))
  {
    var result := CompareFiles(x.fp, solution, cfg);
    pair := Pair(x.id, "solution", result);
    var fp := WithoutSolutionCode(x.fp, solution, cfg.minMatchTokens);
    aside := FingerprintItem(x.id, fp);
  }

  method CompareEach(fps: seq<FingerprintItem>, ghost items: seq<Item>,
                     solution: FileFingerprint, ghost s: ValidPrint, cfg: CompareConfig)
    returns (aside: seq<FingerprintItem>, pairs: seq<Pair>)
    requires |fps| == |items| && (forall k :: 0 <= k < |fps| ==> fps[k].Is(items[k])) && solution.Value() == s
    ensures |aside| == |items| && (forall k :: 0 <= k < |aside| ==> aside[k].Is(WithoutIt(s, cfg)(items[k])))
    ensures pairs == MapAll(items, AgainstSolution(s, cfg))
  {
    hide Compared, WithoutSolution, MapAll, Descending;
    aside, pairs := [], [];
    ghost var f, g := WithoutIt(s, cfg), AgainstSolution(s, cfg);
    for k := 0 to |fps|
      invariant |aside| == k && forall i :: 0 <= i < k ==> fresh(aside[i].fp.tokens) && aside[i].Is(f(items[i]))
      invariant forall i :: 0 <= i < |fps| ==> fps[i].Is(items[i])
      invariant pairs == MapAll(items, g)[..k]
    {
      var item, pair := CompareThenSetAside(fps[k], items[k], solution, s, cfg);
      MapAllNext(items, g, k);
      aside, pairs := aside + [item], pairs + [pair];
    }
    assert MapAll(items, g)[..|items|] == MapAll(items, g);
  }

  lemma MapAllNext<T, U>(items: seq<T>, g: T -> U, k: nat)
    requires k < |items|
    ensures MapAll(items, g)[..k + 1] == MapAll(items, g)[..k] + [g(items[k])]
  {
  }

  method CompareWithSolution(fps: seq<FingerprintItem>, ghost items: seq<Item>,
                             solution: FileFingerprint, ghost s: ValidPrint, cfg: CompareConfig)
    returns (aside: seq<FingerprintItem>, pairs: seq<Pair>)
    requires |fps| == |items| && (forall k :: 0 <= k < |fps| ==> fps[k].Is(items[k])) && solution.Value() == s
    ensures |aside| == |items| && (forall k :: 0 <= k < |aside| ==> aside[k].Is(WithoutIt(s, cfg)(items[k])))
    ensures Descending(pairs) && multiset(pairs) == multiset(MapAll(items, AgainstSolution(s, cfg)))
  {
    hide Compared, WithoutSolution, MapAll, Descending, AgainstSolution, WithoutIt;
    var found;
    aside, found := CompareEach(fps, items, solution, s, cfg);
    pairs := SortPairs(found);
  }

  method CompareRow(fps: seq<FingerprintItem>, ghost items: seq<Item>, i: nat, cfg: CompareConfig) returns (pairs: seq<Pair>)
    requires |fps| == |items| && (forall k :: 0 <= k < |fps| ==> fps[k].Is(items[k]))
    requires i < |items|
    ensures pairs == RowPairs(items, Against(cfg), i, |items|)
  {
    hide Compared, WithoutSolution;
    pairs := [];
    for j := i + 1 to |fps|
      invariant forall k :: 0 <= k < |fps| ==> fps[k].Is(items[k])
      invariant pairs == RowPairs(items, Against(cfg), i, j)
    {
      var pair := CompareItems(fps[i], fps[j], items[i], items[j], cfg);
      pairs := pairs + [pair];
    }
  }

  method CompareRows(fps: seq<FingerprintItem>, ghost items: seq<Item>, cfg: CompareConfig) returns (pairs: seq<Pair>)
    requires |fps| == |items| && (forall k :: 0 <= k < |fps| ==> fps[k].Is(items[k]))
    ensures pairs == AllPairs(items, Against(cfg), |items|)
  {
    hide Compared, WithoutSolution, RowPairs, Descending, Against;
    pairs := [];
    for i := 0 to |fps|
      invariant forall k :: 0 <= k < |fps| ==> fps[k].Is(items[k])
      invariant pairs == AllPairs(items, Against(cfg), i)
    {
      var row := CompareRow(fps, items, i, cfg);
      pairs := pairs + row;
    }
  }

  /** plagiarism.go, lines 102-130: one comparison for each i < j, then the most similar first. */
  method ComparePairs(fps: seq<FingerprintItem>, ghost items: seq<Item>, cfg: CompareConfig) returns (pairs: seq<Pair>)
    requires |fps| == |items| && (forall k :: 0 <= k < |fps| ==> fps[k].Is(items[k]))
    ensures Descending(pairs) && multiset(pairs) == multiset(AllPairs(items, Against(cfg), |items|))
  {
    hide Compared, WithoutSolution, AllPairs, Descending, Against;
    var rows := CompareRows(fps, items, cfg);
    pairs := SortPairs(rows);
  }

  /** What a report on these submissions must hold. */
  ghost predicate Reports(report: Report, items: seq<Item>, solution: Option<ValidPrint>, cfg: CompareConfig) {
    var prepared := Prepared(items, solution, cfg);
    && Descending(report.pairs)
    && multiset(report.pairs) == multiset(AllPairs(prepared, Against(cfg), |prepared|))
    && (report.solutionPairs.Some? <==> solution.Some? && solution.value.tokenCount > 0)
    && (report.solutionPairs.Some? ==>
          Descending(report.solutionPairs.value) &&
          multiset(report.solutionPairs.value) == multiset(MapAll(items, AgainstSolution(solution.value, cfg))))
  }

  /** plagiarism.go, lines 79-92: the solution section, and the items that the pairs are made from. */
  method SolutionSection(fps: seq<FingerprintItem>, ghost items: seq<Item>, cfg: CompareConfig,
                         solution: Option<FileFingerprint>, ghost value: Option<ValidPrint>)
    returns (prepared: seq<FingerprintItem>, pairs: Option<seq<Pair>>)
    requires |fps| == |items| && (forall k :: 0 <= k < |fps| ==> fps[k].Is(items[k]))
    requires solution.Some? == value.Some? && (solution.Some? ==> solution.value.Value() == value.value)
    ensures |prepared| == |Prepared(items, value, cfg)| == |items|
    ensures forall k :: 0 <= k < |prepared| ==> prepared[k].Is(Prepared(items, value, cfg)[k])
    ensures pairs.Some? <==> value.Some? && value.value.tokenCount > 0
    ensures pairs.Some? ==> Descending(pairs.value) && multiset(pairs.value) == multiset(MapAll(items, AgainstSolution(value.value, cfg)))
  {
    hide Compared, WithoutSolution;
    if solution.Some? && solution.value.tokenCount > 0 {
      var found;
      prepared, found := CompareWithSolution(fps, items, solution.value, value.value, cfg);
      pairs := Some(found);
    } else {
      prepared, pairs := fps, None;
    }
  }

  method ComputeSimilarity(ids: seq<string>, prints: seq<SubmissionPrint>, ghost items: seq<Item>, cfg: CompareConfig,
                           solution: Option<FileFingerprint>, ghost value: Option<ValidPrint>) returns (r: Outcome)
    requires |ids| == |prints| && AllValid(prints) && items == Usable(ids, prints, |prints|)
    requires solution.Some? == value.Some? && (solution.Some? ==> solution.value.Value() == value.value)
    ensures r.NoFingerprints? <==> |prints| > 0 && items == []
    ensures Reports(r.report, items, value, cfg)
  {
    hide Compared, WithoutSolution;
    var fps, failures := Collect(ids, prints, items);
    var prepared, solutionPairs := SolutionSection(fps, items, cfg, solution, value);
    if |prepared| < 2 {
      NoPairs(Prepared(items, value, cfg), Against(cfg));
      var report := Report(solutionPairs, []);
      r := if failures > 0 && |prepared| == 0 then NoFingerprints(report, failures) else Ok(report);
    } else {
      var pairs := ComparePairs(prepared, Prepared(items, value, cfg), cfg);
      r := Ok(Report(solutionPairs, pairs));
    }
  }

  lemma NoPairs(items: seq<Item>, f: (Item, Item) -> Pair)
    requires |items| < 2
    ensures AllPairs(items, f, |items|) == []
  {
    EveryPairOnce(items, f);
  }
}
