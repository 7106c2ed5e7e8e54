/** What the score's numbers are, as laws about the evidence. */
module ScoreLaw {
  import opened Options
  import opened Rounding
  import opened Score
  import opened ScoreReport

  // ---------------------------------------------------------------- the strength of a pattern

  /** More is not less. */
  ghost predicate Rising(root: real -> real) {
    forall x, y :: 0.0 <= x <= y <= 1.0 ==> root(x) <= root(y)
  }

  lemma TimesGrows(x: real, y: real, u: real, v: real)
    requires 0.0 <= x <= u && 0.0 <= y <= v
    ensures 0.0 <= Times(x, y) <= Times(u, v)
  {
    TimesMonotone(0.0, x, y);
    TimesMonotone(x, u, y);
    TimesMonotone(y, v, u);
  }

  lemma ProductGrows(cap: real, a: real, b: real, c: real, d: real, e: real, a': real, b': real, c': real, d': real, e': real)
    requires cap >= 0.0 && 0.0 <= a <= a' && 0.0 <= b <= b' && 0.0 <= c <= c' && 0.0 <= d <= d' && 0.0 <= e <= e'
    ensures Product(cap, a, b, c, d, e) <= Product(cap, a', b', c', d', e')
  {
    hide Times;
    TimesGrows(cap, a, cap, a');
    TimesGrows(Times(cap, a), b, Times(cap, a'), b');
    TimesGrows(Times(Times(cap, a), b), c, Times(Times(cap, a'), b'), c');
    TimesGrows(Times(Times(Times(cap, a), b), c), d, Times(Times(Times(cap, a'), b'), c'), d');
    TimesGrows(Times(Times(Times(Times(cap, a), b), c), d), e, Times(Times(Times(Times(cap, a'), b'), c'), d'), e');
  }

  lemma RatioOrder(a: nat, b: nat, c: nat, d: nat)
    requires b > 0 && d > 0 && a * d <= c * b
    ensures 0.0 <= Ratio(a, b) <= Ratio(c, d)
  {
    var x, y := Ratio(a, b), Ratio(c, d);
    assert x * b as real == a as real && y * d as real == c as real;
    assert (a * d) as real <= (c * b) as real;
    Cancel(x, y, b as real, d as real);
  }

  lemma Cancel(x: real, y: real, b: real, d: real)
    requires b > 0.0 && d > 0.0 && (x * b) * d <= (y * d) * b
    ensures x <= y
  {
    assert b * d > 0.0;
    assert (y - x) * (b * d) >= 0.0;
    PositiveFactor(y - x, b * d);
  }

  lemma PositiveFactor(z: real, w: real)
    requires w > 0.0 && z * w >= 0.0
    ensures z >= 0.0
  {
    assert z == z * w / w;
  }

  function LargerOf(a: nat, b: nat): nat {
    if a > b then a else b
  }

  lemma PrevalenceGrows(n: nat, m: nat, o: nat, p: nat)
    requires n <= m && p <= o
    ensures 0.0 <= Ratio(n, LargerOf(n, o) + 5) <= Ratio(m, LargerOf(m, p) + 5) <= 1.0
    ensures 0.0 <= Ratio(n, n + 2) <= Ratio(m, m + 2) <= 1.0
  {
    CrossPrevalence(n, m, o, p);
    RatioOrder(n, LargerOf(n, o) + 5, m, LargerOf(m, p) + 5);
    assert n * (m + 2) <= m * (n + 2);
    RatioOrder(n, n + 2, m, m + 2);
    RatioIsShare(m, LargerOf(m, p) + 5);
    RatioIsShare(m, m + 2);
  }

  lemma CrossPrevalence(n: nat, m: nat, o: nat, p: nat)
    requires n <= m && p <= o
    ensures n * (LargerOf(m, p) + 5) <= m * (LargerOf(n, o) + 5)
  {
    if m > p {
      SameProducts(n, m, LargerOf(n, o));
    } else {
      NatTimesGrows(n, m, p + 5, LargerOf(n, o) + 5);
    }
  }

  lemma NatTimesGrows(a: nat, b: nat, c: nat, d: nat)
    requires a <= b && c <= d
    ensures a * c <= b * d
  {
    assert a * c <= b * c;
    assert b * c <= b * d;
  }

  lemma SameProducts(n: nat, m: nat, k: nat)
    requires n <= m && n <= k
    ensures n * (m + 5) <= m * (k + 5)
  {
    assert n * (m + 5) == m * n + 5 * n;
    NatTimesGrows(m, m, n, k);
    assert m * (k + 5) == m * k + 5 * m;
  }

  lemma DensityGrows(n: nat, m: nat, tokens: nat)
    requires n <= m
    ensures var t := if tokens > 1 then tokens else 1;
            0.0 <= AtMostOne(Ratio(100 * n, t)) <= AtMostOne(Ratio(100 * m, t)) <= 1.0
  {
    var t := if tokens > 1 then tokens else 1;
    assert 100 * n * t <= 100 * m * t;
    RatioOrder(100 * n, t, 100 * m, t);
  }

  lemma CorroborationGrows(families: nat, more: nat)
    requires families <= more
    ensures 0.5 <= Corroboration(families) <= Corroboration(more) <= 1.0
    ensures 6.0 * Corroboration(families) == 3.0 + (if families < 3 then families else 3) as real
  {
  }

  /** A pattern that occurs more often, among no more opportunities and beside no fewer supporting families, is never weaker. */
  lemma StrengthGrows(rule: Rule, n: nat, m: nat, opportunities: nat, tokens: nat, families: nat, more: nat, root: real -> real)
    requires RootOk(root) && Rising(root) && rule.cap >= 0.0 && n <= m && opportunities <= rule.opportunities && families <= more
    ensures Strength(rule, n, tokens, families, root) <= Strength(rule.(opportunities := opportunities), m, tokens, more, root)
  {
    PrevalenceGrows(n, m, rule.opportunities, opportunities);
    DensityGrows(n, m, tokens);
    CorroborationGrows(families, more);
    RatioIsShare(tokens, tokens + 100);
    hide Product, Ratio, Corroboration, AtMostOne;
    var t := if tokens > 1 then tokens else 1;
    ProductGrows(rule.cap,
                 Ratio(n, n + 2), root(Ratio(n, LargerOf(n, rule.opportunities) + 5)), root(Ratio(tokens, tokens + 100)),
                 root(AtMostOne(Ratio(100 * n, t))), Corroboration(families),
                 Ratio(m, m + 2), root(Ratio(m, LargerOf(m, opportunities) + 5)), root(Ratio(tokens, tokens + 100)),
                 root(AtMostOne(Ratio(100 * m, t))), Corroboration(more));
  }

  lemma Regroup(cap: real, r: real, c: real, k: real, n: real)
    ensures Product(cap, r, c, c, c, k) * n * 6.0 == cap * (r * n) * (c * c * c) * (6.0 * k)
  {
    var p := cap * r;
    assert Product(cap, r, c, c, c, k) == ((p * c * c) * c) * k;
    assert (p * c * c) * c == p * (c * c * c);
    var q := c * c * c;
    assert (p * q) * k * n * 6.0 == (p * n) * q * (6.0 * k) by {
      Shuffle(p, q, k, n);
    }
    assert p * n == cap * (r * n);
  }

  lemma Shuffle(p: real, q: real, k: real, n: real)
    ensures (p * q) * k * n * 6.0 == (p * n) * q * (6.0 * k)
  {
    assert (p * q) * k == p * (q * k);
    assert p * (q * k) * n == (p * n) * (q * k);
  }

  /** With a root that is the same c everywhere, a strength is the cap times n/(n+2), times c for each of prevalence, sample size and density, times
      one half plus a sixth for each of up to three families. */
  lemma StrengthUnderConstantRoot(rule: Rule, n: nat, tokens: nat, families: nat, root: real -> real, c: real)
    requires forall x :: root(x) == c
    ensures Strength(rule, n, tokens, families, root) * (n + 2) as real * 6.0
            == rule.cap * n as real * (c * c * c) * (3.0 + (if families < 3 then families else 3) as real)
  {
    var r := Ratio(n, n + 2);
    assert r * (n + 2) as real == n as real;
    CorroborationGrows(families, families);
    hide Product, Ratio, Corroboration;
    Regroup(rule.cap, r, c, Corroboration(families), (n + 2) as real);
  }

  lemma NoZeroFactor(x: real, y: real)
    ensures Times(x, y) == 0.0 <==> x == 0.0 || y == 0.0
  {
  }

  /** A pattern counts for nothing exactly when it does not occur, or the root vanishes at its prevalence, its sample size or its density. */
  lemma StrengthVanishes(rule: Rule, n: nat, tokens: nat, families: nat, root: real -> real)
    requires rule.cap > 0.0
    ensures Strength(rule, n, tokens, families, root) == 0.0 <==>
            || n == 0
            || root(n as real / ((if n > rule.opportunities then n else rule.opportunities) + 5) as real) == 0.0
            || root(tokens as real / (tokens + 100) as real) == 0.0
            || root(var d := (100 * n) as real / (if tokens > 1 then tokens else 1) as real; if d < 1.0 then d else 1.0) == 0.0
  {
    var a, r1, r2 := Ratio(n, n + 2), root(Ratio(n, (if n > rule.opportunities then n else rule.opportunities) + 5)), root(Ratio(tokens, tokens + 100));
    var r3, k := root(AtMostOne(Ratio(100 * n, if tokens > 1 then tokens else 1))), Corroboration(families);
    assert a == 0.0 <==> n == 0 by { assert a * (n + 2) as real == n as real; }
    CorroborationGrows(families, families);
    hide Times, Corroboration;
    NoZeroFactor(rule.cap, a);
    NoZeroFactor(Times(rule.cap, a), r1);
    NoZeroFactor(Times(Times(rule.cap, a), r1), r2);
    NoZeroFactor(Times(Times(Times(rule.cap, a), r1), r2), r3);
    NoZeroFactor(Times(Times(Times(Times(rule.cap, a), r1), r2), r3), k);
  }

  // ---------------------------------------------------------------- the candidates

  /** What each rule is worth at most, and out of how many constructs. */
  lemma RuleTable(stats: Stats, rule: Rule)
    ensures rule in Rules(stats) <==>
            || (rule.key == "initialized_array" && rule.cap == 40.0 && rule.opportunities == stats.arrays)
            || (rule.key == "variable_length_array" && rule.cap == 30.0 && rule.opportunities == stats.arrays)
            || (rule.key == "wrapped_call" && rule.cap == 30.0 && rule.opportunities == stats.calls)
            || (rule.key == "complex_condition" && rule.cap == 20.0 && rule.opportunities == stats.conditions)
    ensures |Rules(stats)| == 4
    ensures IsArray(rule.key) <==> rule.key == "initialized_array" || rule.key == "variable_length_array"
  {
    var a, b := Rule("initialized_array", 40.0, stats.arrays), Rule("variable_length_array", 30.0, stats.arrays);
    var c, d := Rule("wrapped_call", 30.0, stats.calls), Rule("complex_condition", 20.0, stats.conditions);
    assert Rules(stats) == [a, b, c, d];
  }

  /** The candidates are exactly the rules that occur, each at its strength. */
  lemma {:induction false} CandidatesAre(rules: seq<Rule>, stats: Stats, families: nat, root: real -> real, cand: Candidate)
    ensures cand in Candidates(rules, stats, families, root) <==>
            exists k :: 0 <= k < |rules| && rules[k].key in stats.patterns && stats.patterns[rules[k].key] > 0
                     && cand == Candidate(rules[k].key, Strength(rules[k], stats.patterns[rules[k].key], stats.tokens, families, root))
  {
    hide Strength;
    if rules != [] {
      var n := |rules| - 1;
      CandidatesAre(rules[..n], stats, families, root, cand);
      if cand in Candidates(rules[..n], stats, families, root) {
        var k :| 0 <= k < n && rules[..n][k].key in stats.patterns && stats.patterns[rules[..n][k].key] > 0
              && cand == Candidate(rules[..n][k].key, Strength(rules[..n][k], stats.patterns[rules[..n][k].key], stats.tokens, families, root));
        assert rules[k] == rules[..n][k];
      }
      forall k | 0 <= k < n ensures rules[..n][k] == rules[k] {
      }
    }
  }

  function StrengthTotal(cands: seq<Candidate>): real {
    if cands == [] then 0.0 else StrengthTotal(cands[..|cands| - 1]) + cands[|cands| - 1].strength
  }

  /** Array and other strengths are all strengths; the array maximum is the strength of an array pattern, and none of them is stronger. */
  lemma {:induction false} SumsAre(cands: seq<Candidate>)
    requires Strengths(cands)
    ensures ArraySum(cands) + OtherSum(cands) == StrengthTotal(cands)
    ensures (forall k :: 0 <= k < |cands| && IsArray(cands[k].key) ==> cands[k].strength <= ArrayMax(cands))
    ensures ArrayMax(cands) == 0.0 || exists k :: 0 <= k < |cands| && IsArray(cands[k].key) && cands[k].strength == ArrayMax(cands)
    ensures (forall k :: 0 <= k < |cands| ==> IsArray(cands[k].key)) ==> OtherSum(cands) == 0.0
    ensures (forall k :: 0 <= k < |cands| ==> !IsArray(cands[k].key)) ==> ArraySum(cands) == 0.0
  {
    if cands != [] {
      var n := |cands| - 1;
      SumsAre(cands[..n]);
      if ArrayMax(cands[..n]) != 0.0 {
        var k :| 0 <= k < n && IsArray(cands[..n][k].key) && cands[..n][k].strength == ArrayMax(cands[..n]);
        assert cands[k] == cands[..n][k];
      }
    }
  }

  // ---------------------------------------------------------------- the budget

  lemma PointsAreNear(share: real, scale: real)
    ensures 100.0 * Times(share, scale) - 0.5 <= Points(share, scale) as real <= 100.0 * Times(share, scale) + 0.5
  {
    RoundAwayIsNearest(100.0 * Times(share, scale));
  }

  lemma {:induction false} TotalsAreNear(cands: seq<Candidate>, arrayMax: real, arraySum: real, scale: real)
    ensures var total, weighed := Total(PatternEntries(cands, arrayMax, arraySum, scale)) as real, WeighedSum(cands, arrayMax, arraySum, scale);
            100.0 * weighed - 0.5 * |cands| as real <= total <= 100.0 * weighed + 0.5 * |cands| as real
  {
    hide Shared, Points, Times;
    if cands != [] {
      var n := |cands| - 1;
      var share := Shared(cands[n], arrayMax, arraySum);
      TotalsAreNear(cands[..n], arrayMax, arraySum, scale);
      PointsAreNear(share, scale);
      TotalAppend(PatternEntries(cands[..n], arrayMax, arraySum, scale), [Contribution(cands[n].key, Points(share, scale))]);
      OneTotal(Contribution(cands[n].key, Points(share, scale)));
    }
  }

  /** What is left of these points beside the score: a score of 100 leaves nothing. */
  function Remaining(points: real, score: int): real {
    Times(points, 1.0 - score as real / 10000.0)
  }

  function LeastOf(x: real, y: real): real {
    if x < y then x else y
  }

  function MostOf(x: real, y: real): real {
    if x > y then x else y
  }

  lemma FactorSpends(total: real)
    requires total >= 0.0
    ensures Times(total, BudgetFactor(total)) == LeastOf(total, 24.0) && Times(MostOf(total, 24.0), BudgetFactor(total)) == 24.0
  {
    if total > BUDGET {
      BudgetPart(total);
    } else {
      assert BUDGET / BUDGET == 1.0;
    }
  }

  lemma TimesRegroups(x: real, y: real, z: real)
    ensures Times(x, Times(y, z)) == Times(Times(x, y), z)
  {
    TimesSwap(x, y, z);
  }

  lemma BudgetIsSpent(total: real, score: int)
    requires total >= 0.0
    ensures Times(total, BudgetScale(total, score)) == Remaining(LeastOf(total, 24.0), score)
    ensures Times(MostOf(total, 24.0), BudgetScale(total, score)) == Remaining(24.0, score)
  {
    hide Times, BudgetFactor;
    FactorSpends(total);
    TimesRegroups(total, BudgetFactor(total), Headroom(score));
    TimesRegroups(MostOf(total, 24.0), BudgetFactor(total), Headroom(score));
  }

  lemma PositiveStrength(cands: seq<Candidate>)
    requires Strengths(cands)
    ensures OtherSum(cands) + ArrayMax(cands) >= 0.0
  {
    ArrayFacts(cands);
  }

  /** The pattern rules add the strengths, the array pair at its stronger member, up to 24 points, times what the score leaves, but for rounding. */
  lemma PatternsSpendTheBudget(cands: seq<Candidate>, score: int)
    requires Strengths(cands)
    ensures var points := 100.0 * Remaining(LeastOf(OtherSum(cands) + ArrayMax(cands), 24.0), score);
            points - 0.5 * |cands| as real <= Total(PatternsOn(cands, score)) as real <= points + 0.5 * |cands| as real
  {
    hide Times, BudgetScale, Strengths, ArrayMax, ArraySum, OtherSum, SharedSum, PatternEntries, Total, Remaining, LeastOf, MostOf, WeighedSum;
    var m, s, total := ArrayMax(cands), ArraySum(cands), OtherSum(cands) + ArrayMax(cands);
    PositiveStrength(cands);
    BudgetIsSpent(total, score);
    ArrayPairCountsOnce(cands);
    TotalsAreNear(cands, m, s, BudgetScale(total, score));
    WeighedSumIs(cands, m, s, BudgetScale(total, score));
  }

  lemma {:induction false} EntryAt(cands: seq<Candidate>, arrayMax: real, arraySum: real, scale: real, k: nat)
    requires k < |cands|
    ensures PatternEntries(cands, arrayMax, arraySum, scale)[k] == Contribution(cands[k].key, Points(Shared(cands[k], arrayMax, arraySum), scale))
  {
    hide Points, Shared;
    if k < |cands| - 1 {
      EntryAt(cands[..|cands| - 1], arrayMax, arraySum, scale, k);
    }
  }

  /** The strength an entry is paid for: the array pair's is scaled down to the stronger member. */
  function PaidStrength(cands: seq<Candidate>, k: nat): real
    requires k < |cands|
  {
    if IsArray(cands[k].key) && ArraySum(cands) > 0.0 then cands[k].strength * (ArrayMax(cands) / ArraySum(cands)) else cands[k].strength
  }

  /** Each rule's own entry is its share of the 24 points the budget holds, or of all strengths when they are more. */
  lemma EntriesAreShares(cands: seq<Candidate>, score: int, k: nat)
    requires Strengths(cands) && k < |cands|
    ensures var size := MostOf(OtherSum(cands) + ArrayMax(cands), 24.0);
            var entry, exact := PatternsOn(cands, score)[k], 100.0 * Times(PaidStrength(cands, k), Remaining(24.0, score));
            entry.key == cands[k].key && exact - 0.5 * size <= Times(entry.points as real, size) <= exact + 0.5 * size
  {
    hide BudgetScale, Points, ArrayMax, ArraySum, OtherSum, PatternEntries, Times, Remaining, Strengths, Shared, PaidStrength, MostOf;
    var m, s, total := ArrayMax(cands), ArraySum(cands), OtherSum(cands) + ArrayMax(cands);
    var size, scale := MostOf(total, 24.0), BudgetScale(total, score);
    PositiveStrength(cands);
    BudgetIsSpent(total, score);
    SizeIsPositive(total);
    EntryIsPaid(cands, m, s, scale, k);
    PointsAreNear(PaidStrength(cands, k), scale);
    Spread(Points(PaidStrength(cands, k), scale) as real, PaidStrength(cands, k), scale, size);
  }

  lemma SizeIsPositive(total: real)
    ensures MostOf(total, 24.0) > 0.0
  {
  }

  lemma EntryIsPaid(cands: seq<Candidate>, m: real, s: real, scale: real, k: nat)
    requires k < |cands| && m == ArrayMax(cands) && s == ArraySum(cands)
    ensures PatternEntries(cands, m, s, scale)[k] == Contribution(cands[k].key, Points(PaidStrength(cands, k), scale))
  {
    hide Points, ArrayMax, ArraySum, PatternEntries, Shared, PaidStrength;
    EntryAt(cands, m, s, scale, k);
    PaidIsShared(cands, k);
  }

  lemma PaidIsShared(cands: seq<Candidate>, k: nat)
    requires k < |cands|
    ensures PaidStrength(cands, k) == Shared(cands[k], ArrayMax(cands), ArraySum(cands))
  {
    hide ArrayMax, ArraySum;
  }

  lemma Spread(points: real, own: real, scale: real, size: real)
    requires 100.0 * Times(own, scale) - 0.5 <= points <= 100.0 * Times(own, scale) + 0.5 && size > 0.0
    ensures 100.0 * Times(own, Times(size, scale)) - 0.5 * size <= Times(points, size) <= 100.0 * Times(own, Times(size, scale)) + 0.5 * size
  {
    hide Times;
    ScaleAll(points, Times(own, scale), size);
    TimesRegroups(own, scale, size);
    TimesCommutes(size, scale);
  }

  lemma TimesCommutes(x: real, y: real)
    ensures Times(x, y) == Times(y, x)
  {
  }

  lemma ScaleAll(points: real, x: real, size: real)
    requires 100.0 * x - 0.5 <= points <= 100.0 * x + 0.5 && size > 0.0
    ensures 100.0 * Times(x, size) - 0.5 * size <= Times(points, size) <= 100.0 * Times(x, size) + 0.5 * size
  {
    hide Times;
    TimesAdds(100.0 * x, points - 100.0 * x, points, size);
    TimesHundred(x, size);
    TimesHalf(points - 100.0 * x, size);
  }

  lemma TimesAdds(x: real, y: real, sum: real, z: real)
    requires x + y == sum
    ensures Times(sum, z) == Times(x, z) + Times(y, z)
  {
    Distribute(x, y, z);
  }

  lemma TimesHundred(x: real, z: real)
    ensures Times(100.0 * x, z) == 100.0 * Times(x, z)
  {
    TimesSwap(100.0, x, z);
  }

  lemma TimesHalf(d: real, z: real)
    requires -0.5 <= d <= 0.5 && z > 0.0
    ensures -0.5 * z <= Times(d, z) <= 0.5 * z
  {
    TimesMonotone(-0.5, d, z);
    TimesMonotone(d, 0.5, z);
  }
}
