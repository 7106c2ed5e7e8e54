/** The overall score as exact arithmetic: points are whole hundredths, so a score of 100 is 10000. */
module Score {
  import opened Options
  import opened Rounding

  datatype Contribution = Contribution(key: string, points: int)

  const FULL: int := 10000

  // ---------------------------------------------------------------- sums and reconciliation

  function Total(entries: seq<Contribution>): int {
    if entries == [] then 0 else Total(entries[..|entries| - 1]) + entries[|entries| - 1].points
  }

  /** The first of the largest positive entries, or -1. */
  function Best(entries: seq<Contribution>): (b: int)
    ensures -1 <= b < |entries|
  {
    if entries == [] then -1
    else
      var before, last := Best(entries[..|entries| - 1]), entries[|entries| - 1].points;
      if last > 0 && (before < 0 || last > entries[before].points) then |entries| - 1 else before
  }

  /** The largest positive entry absorbs the difference to the target. */
  function Reconcile(entries: seq<Contribution>, target: int): (r: seq<Contribution>)
    ensures |r| == |entries|
  {
    var b := Best(entries);
    if b < 0 then entries else entries[b := entries[b].(points := entries[b].points + target - Total(entries))]
  }

  lemma {:induction false} BestIsLargest(entries: seq<Contribution>)
    ensures Best(entries) < 0 ==> forall k :: 0 <= k < |entries| ==> entries[k].points <= 0
    ensures Best(entries) >= 0 ==> entries[Best(entries)].points > 0
    ensures Best(entries) >= 0 ==> forall k :: 0 <= k < |entries| ==> entries[k].points <= entries[Best(entries)].points
    ensures Best(entries) >= 0 ==> forall k :: 0 <= k < Best(entries) ==> entries[k].points < entries[Best(entries)].points
  {
    if entries != [] {
      BestIsLargest(entries[..|entries| - 1]);
    }
  }

  lemma {:induction false} TotalOfUpdate(entries: seq<Contribution>, b: nat, entry: Contribution)
    requires b < |entries|
    ensures Total(entries[b := entry]) == Total(entries) - entries[b].points + entry.points
  {
    var n := |entries| - 1;
    if b == n {
      assert entries[b := entry][..n] == entries[..n];
    } else {
      TotalOfUpdate(entries[..n], b, entry);
      assert entries[b := entry][..n] == entries[..n][b := entry];
    }
  }

  lemma {:induction false} TotalAppend(entries: seq<Contribution>, more: seq<Contribution>)
    ensures Total(entries + more) == Total(entries) + Total(more)
  {
    if more == [] {
      assert entries + more == entries;
    } else {
      TotalAppend(entries, more[..|more| - 1]);
      assert (entries + more)[..|entries + more| - 1] == entries + more[..|more| - 1];
    }
  }

  lemma {:induction false} TotalSigns(entries: seq<Contribution>)
    ensures (forall k :: 0 <= k < |entries| ==> entries[k].points >= 0) ==> Total(entries) >= 0
    ensures (forall k :: 0 <= k < |entries| ==> entries[k].points <= 0) ==> Total(entries) <= 0
  {
    if entries != [] {
      TotalSigns(entries[..|entries| - 1]);
    }
  }

  /** Reconciling makes the entries add up to the target whenever there is a positive entry; otherwise the total is not positive
      and nothing changes. */
  lemma ReconcileTotals(entries: seq<Contribution>, target: int)
    ensures Best(entries) >= 0 ==> Total(Reconcile(entries, target)) == target
    ensures Best(entries) < 0 ==> Total(entries) <= 0
  {
    BestIsLargest(entries);
    TotalSigns(entries);
    if Best(entries) >= 0 {
      var b := Best(entries);
      TotalOfUpdate(entries, b, entries[b].(points := entries[b].points + target - Total(entries)));
    }
  }

  predicate SomeNegative(entries: seq<Contribution>) {
    exists k :: 0 <= k < |entries| && entries[k].points < 0
  }

  /** The difference to the target takes away more than the largest positive entry holds. */
  predicate Overshoots(entries: seq<Contribution>, target: int) {
    Best(entries) >= 0 && Total(entries) - target > entries[Best(entries)].points
  }

  /** After reconciling, an entry is negative exactly when one was before or the difference overshoots the largest entry. */
  lemma ReconcileGoesNegative(entries: seq<Contribution>, target: int)
    ensures SomeNegative(Reconcile(entries, target)) <==> SomeNegative(entries) || Overshoots(entries, target)
  {
    var b, r := Best(entries), Reconcile(entries, target);
    BestIsLargest(entries);
    if Overshoots(entries, target) {
      assert r[b].points < 0;
    }
    if SomeNegative(entries) {
      var k :| 0 <= k < |entries| && entries[k].points < 0;
      assert r[k].points < 0;
    }
    if SomeNegative(r) {
      var k :| 0 <= k < |r| && r[k].points < 0;
      assert k != b ==> entries[k].points < 0;
    }
  }

  lemma AppendSigns(entries: seq<Contribution>, more: seq<Contribution>)
    ensures SomeNegative(entries + more) <==> SomeNegative(entries) || SomeNegative(more)
  {
    var all := entries + more;
    if SomeNegative(entries) {
      var k :| 0 <= k < |entries| && entries[k].points < 0;
      assert all[k].points < 0;
    }
    if SomeNegative(more) {
      var k :| 0 <= k < |more| && more[k].points < 0;
      assert all[|entries| + k].points < 0;
    }
    if SomeNegative(all) {
      var k :| 0 <= k < |all| && all[k].points < 0;
      assert if k < |entries| then entries[k].points < 0 else more[k - |entries|].points < 0;
    }
  }

  // ---------------------------------------------------------------- the inputs

  datatype Feature = Feature(key: string, evidence: string, score: real, reliability: real, weight: real)

  datatype Choice = Choice(samples: nat, dominant: nat)

  datatype Stats = Stats(tokens: nat, calls: nat, conditions: nat, arrays: nat, patterns: map<string, nat>)

  datatype Style = Style(score: real, features: seq<Feature>, stats: Option<Stats>, formatting: seq<Choice>)

  datatype Tell = Tell(kind: string, flagged: bool)

  datatype Submission = Submission(style: Option<Style>, parseError: bool, coverage: real, tells: seq<Tell>)

  const REVIEW: string := "review"
  const TOOL_FILE: string := "tool_file"
  const CHAT_TEXT: string := "chat_text"

  /** The four review features weigh 2, 0.75, 1.5 and 1.5. */
  const REVIEW_WEIGHT: real := 2.0 + 0.75 + 1.5 + 1.5

  predicate Share(x: real) {
    0.0 <= x <= 1.0
  }

  predicate FeatureOk(f: Feature) {
    Share(f.score) && Share(f.reliability) && f.weight >= 0.0
  }

  predicate StyleOk(style: Style) {
    && Share(style.score)
    && (forall k :: 0 <= k < |style.features| ==> FeatureOk(style.features[k]))
    && (forall k :: 0 <= k < |style.formatting| ==> style.formatting[k].dominant <= style.formatting[k].samples)
  }

  predicate SubmissionOk(sub: Submission) {
    Share(sub.coverage) && (sub.style.Some? ==> StyleOk(sub.style.value))
  }

  /** All that is used of the square root: it keeps shares shares. */
  ghost predicate RootOk(root: real -> real) {
    forall x :: Share(x) ==> Share(root(x))
  }

  // ---------------------------------------------------------------- style points

  function FeaturePoints(f: Feature): int {
    Hundredths(100.0 * f.score * f.reliability * f.weight / REVIEW_WEIGHT)
  }

  function StyleEntries(features: seq<Feature>): seq<Contribution> {
    if features == [] then []
    else
      var before, f := StyleEntries(features[..|features| - 1]), features[|features| - 1];
      if f.evidence == REVIEW then before + [Contribution("style:" + f.key, FeaturePoints(f))] else before
  }

  predicate HasReview(features: seq<Feature>) {
    exists k :: 0 <= k < |features| && features[k].evidence == REVIEW
  }

  lemma FeaturePointsArePositive(f: Feature)
    requires FeatureOk(f)
    ensures FeaturePoints(f) >= 0
  {
    TimesMonotone(0.0, 100.0 * f.score, f.reliability);
    TimesMonotone(0.0, 100.0 * f.score * f.reliability, f.weight);
    RoundingKeepsSign(100.0 * (100.0 * f.score * f.reliability * f.weight / REVIEW_WEIGHT));
  }

  lemma RoundingKeepsSign(x: real)
    requires x >= 0.0
    ensures RoundAway(x) >= 0 && RoundAway(x) as real <= 2.0 * x && RoundAway(x) as real <= x + 0.5
  {
    FloorBounds(x + 0.5);
    if x < 0.5 {
      FloorUnique(x + 0.5, 0);
    }
  }

  lemma {:induction false} StyleEntriesAreSound(features: seq<Feature>)
    requires forall k :: 0 <= k < |features| ==> FeatureOk(features[k])
    ensures forall k :: 0 <= k < |StyleEntries(features)| ==> StyleEntries(features)[k].points >= 0
    ensures StyleEntries(features) != [] <==> HasReview(features)
  {
    if features != [] {
      var n := |features| - 1;
      StyleEntriesAreSound(features[..n]);
      FeaturePointsArePositive(features[n]);
      if HasReview(features[..n]) {
        var k :| 0 <= k < n && features[..n][k].evidence == REVIEW;
        assert features[k].evidence == REVIEW;
      }
      if features[n].evidence != REVIEW && HasReview(features) {
        var k :| 0 <= k <= n && features[k].evidence == REVIEW;
        assert features[..n][k].evidence == REVIEW;
      }
    }
  }

  /** The score after style: the rounded style score when any style points are positive, and otherwise nothing. */
  function StyleScore(style: Option<Style>): int {
    if style.Some? && Best(StyleEntries(style.value.features)) >= 0 then Tenths(style.value.score * 100.0) else 0
  }

  lemma TenthsInRange(x: real)
    requires 0.0 <= x <= 100.0
    ensures 0 <= Tenths(x) <= FULL && Tenths(x) % 10 == 0
  {
    RoundAwayOfInt(1000);
    RoundAwayMonotone(10.0 * x, 1000.0);
    RoundAwayOfInt(0);
    RoundAwayMonotone(0.0, 10.0 * x);
  }

  // ---------------------------------------------------------------- floors

  function Max(a: int, b: int): int {
    if a >= b then a else b
  }

  function FloorPoints(score: int, floor: real): int {
    var missing := floor - score as real / 100.0;
    Hundredths(if missing > 0.0 then missing else 0.0)
  }

  /** A floor lifts the score exactly to the rounded floor, and never lowers it. */
  lemma FloorLifts(score: int, floor: real)
    requires score >= 0 && floor >= 0.0
    ensures FloorPoints(score, floor) >= 0
    ensures score + FloorPoints(score, floor) == Max(score, Hundredths(floor))
  {
    var missing := floor - score as real / 100.0;
    if missing > 0.0 {
      RoundingKeepsSign(100.0 * missing);
      assert 100.0 * missing == 100.0 * floor - score as real;
      FloorBounds(100.0 * floor + 0.5);
      FloorUnique(100.0 * floor - score as real + 0.5, (100.0 * floor + 0.5).Floor - score);
    } else {
      RoundAwayOfInt(0);
      assert 100.0 * floor <= score as real;
      RoundAwayMonotone(100.0 * floor, score as real);
      RoundAwayOfInt(score);
    }
  }

  lemma HundredthsOfTenths(x: real)
    ensures Hundredths(Tenths(x) as real / 100.0) == Tenths(x)
  {
    assert 100.0 * (Tenths(x) as real / 100.0) == Tenths(x) as real;
    RoundAwayOfInt(Tenths(x));
  }

  // ---------------------------------------------------------------- supporting families

  function Family(key: string): string {
    if key == "prose_comments" || key == "doc_headers" then "comments" else key
  }

  predicate Supports(f: Feature) {
    f.evidence == REVIEW && f.score * f.reliability >= 0.5
  }

  function Families(features: seq<Feature>): set<string> {
    set k | 0 <= k < |features| && Supports(features[k]) :: Family(features[k].key)
  }

  function FamilyCount(style: Option<Style>): nat {
    if style.Some? then |Families(style.value.features)| else 0
  }

  function UpToThree(n: nat): nat {
    if n < 3 then n else 3
  }

  function Corroboration(families: nat): real {
    0.5 + 0.5 * UpToThree(families) as real / 3.0
  }

  // ---------------------------------------------------------------- contextual patterns

  datatype Rule = Rule(key: string, cap: real, opportunities: nat)

  datatype Candidate = Candidate(key: string, strength: real)

  function Rules(stats: Stats): seq<Rule> {
    [Rule("initialized_array", 40.0, stats.arrays),
     Rule("variable_length_array", 30.0, stats.arrays),
     Rule("wrapped_call", 30.0, stats.calls),
     Rule("complex_condition", 20.0, stats.conditions)]
  }

  predicate IsArray(key: string) {
    key == "initialized_array" || key == "variable_length_array"
  }

  function Occurrences(rule: Rule, stats: Stats): nat {
    if rule.key in stats.patterns then stats.patterns[rule.key] else 0
  }

  function Ratio(a: nat, b: nat): real
    requires b > 0
  {
    a as real / b as real
  }

  function AtMostOne(x: real): real {
    if x < 1.0 then x else 1.0
  }

  function Product(cap: real, a: real, b: real, c: real, d: real, e: real): real {
    Times(Times(Times(Times(Times(cap, a), b), c), d), e)
  }

  /** A product under a name, so that proofs need not multiply out. */
  function Times(x: real, y: real): real {
    x * y
  }

  /** Repetition, prevalence, sample size, token density and corroboration. */
  function Strength(rule: Rule, n: nat, tokens: nat, families: nat, root: real -> real): real {
    Product(rule.cap, Ratio(n, n + 2), root(Ratio(n, (if n > rule.opportunities then n else rule.opportunities) + 5)),
            root(Ratio(tokens, tokens + 100)), root(AtMostOne(Ratio(100 * n, if tokens > 1 then tokens else 1))), Corroboration(families))
  }

  function Candidates(rules: seq<Rule>, stats: Stats, families: nat, root: real -> real): (r: seq<Candidate>)
    ensures |r| <= |rules|
  {
    if rules == [] then []
    else
      var before, rule := Candidates(rules[..|rules| - 1], stats, families, root), rules[|rules| - 1];
      var n := Occurrences(rule, stats);
      if n == 0 then before else before + [Candidate(rule.key, Strength(rule, n, stats.tokens, families, root))]
  }

  function ArrayMax(cands: seq<Candidate>): real {
    if cands == [] then 0.0
    else
      var before, last := ArrayMax(cands[..|cands| - 1]), cands[|cands| - 1];
      if IsArray(last.key) && last.strength > before then last.strength else before
  }

  function ArraySum(cands: seq<Candidate>): real {
    if cands == [] then 0.0
    else ArraySum(cands[..|cands| - 1]) + if IsArray(cands[|cands| - 1].key) then cands[|cands| - 1].strength else 0.0
  }

  function OtherSum(cands: seq<Candidate>): real {
    if cands == [] then 0.0
    else OtherSum(cands[..|cands| - 1]) + if IsArray(cands[|cands| - 1].key) then 0.0 else cands[|cands| - 1].strength
  }

  /** The two array patterns share the strength of the stronger one. */
  function Shared(cand: Candidate, arrayMax: real, arraySum: real): real {
    if arraySum > 0.0 && IsArray(cand.key) then cand.strength * (arrayMax / arraySum) else cand.strength
  }

  function SharedSum(cands: seq<Candidate>, arrayMax: real, arraySum: real): real {
    if cands == [] then 0.0
    else SharedSum(cands[..|cands| - 1], arrayMax, arraySum) + Shared(cands[|cands| - 1], arrayMax, arraySum)
  }

  const BUDGET: real := 24.0

  function Headroom(score: int): real {
    1.0 - score as real / 10000.0
  }

  function BudgetFactor(total: real): real {
    AtMostOne(BUDGET / (if total > BUDGET then total else BUDGET))
  }

  /** The budget's factor, scaled by what the score leaves. */
  function BudgetScale(total: real, score: int): real {
    Times(BudgetFactor(total), Headroom(score))
  }

  function Points(share: real, scale: real): int {
    Hundredths(Times(share, scale))
  }

  function PatternEntries(cands: seq<Candidate>, arrayMax: real, arraySum: real, scale: real): (r: seq<Contribution>)
    ensures |r| == |cands|
  {
    if cands == [] then []
    else
      var last := cands[|cands| - 1];
      PatternEntries(cands[..|cands| - 1], arrayMax, arraySum, scale)
      + [Contribution(last.key, Points(Shared(last, arrayMax, arraySum), scale))]
  }

  /** The entries the pattern rules add on top of a score. */
  function PatternsOn(cands: seq<Candidate>, score: int): seq<Contribution> {
    PatternEntries(cands, ArrayMax(cands), ArraySum(cands), BudgetScale(OtherSum(cands) + ArrayMax(cands), score))
  }

  predicate Strengths(cands: seq<Candidate>) {
    forall k :: 0 <= k < |cands| ==> cands[k].strength >= 0.0
  }

  lemma ShareTimes(x: real, y: real)
    requires x >= 0.0 && Share(y)
    ensures 0.0 <= Times(x, y) <= x
  {
  }

  lemma Distribute(x: real, y: real, z: real)
    ensures (x + y) * z == x * z + y * z
  {
  }

  lemma TimesMonotone(x: real, y: real, z: real)
    requires x <= y && z >= 0.0
    ensures x * z <= y * z
  {
  }

  lemma TimesSwap(x: real, y: real, z: real)
    ensures x * (y * z) == (x * y) * z
  {
  }

  lemma RatioIsShare(a: nat, b: nat)
    requires a <= b && b > 0
    ensures Share(Ratio(a, b))
  {
    assert a as real <= b as real;
  }

  lemma ProductOfShares(cap: real, a: real, b: real, c: real, d: real, e: real)
    requires cap >= 0.0 && Share(a) && Share(b) && Share(c) && Share(d) && Share(e)
    ensures 0.0 <= Product(cap, a, b, c, d, e) <= cap
  {
    hide Times;
    ShareTimes(cap, a);
    ShareTimes(Times(cap, a), b);
    ShareTimes(Times(Times(cap, a), b), c);
    ShareTimes(Times(Times(Times(cap, a), b), c), d);
    ShareTimes(Times(Times(Times(Times(cap, a), b), c), d), e);
  }

  /** A strength is never negative and never above its rule's cap. */
  lemma StrengthIsCapped(rule: Rule, n: nat, tokens: nat, families: nat, root: real -> real)
    requires RootOk(root) && rule.cap >= 0.0
    ensures 0.0 <= Strength(rule, n, tokens, families, root) <= rule.cap
  {
    var prevalence := Ratio(n, (if n > rule.opportunities then n else rule.opportunities) + 5);
    var density := AtMostOne(Ratio(100 * n, if tokens > 1 then tokens else 1));
    var size := Ratio(tokens, tokens + 100);
    RatioIsShare(n, n + 2);
    RatioIsShare(n, (if n > rule.opportunities then n else rule.opportunities) + 5);
    RatioIsShare(tokens, tokens + 100);
    RatioIsPositive(100 * n, if tokens > 1 then tokens else 1);
    assert UpToThree(families) as real <= 3.0;
    assert Share(Corroboration(families));
    hide Product, Ratio, Corroboration;
    ProductOfShares(rule.cap, Ratio(n, n + 2), root(prevalence), root(size), root(density), Corroboration(families));
  }

  lemma RatioIsPositive(a: nat, b: nat)
    requires b > 0
    ensures Ratio(a, b) >= 0.0
  {
  }

  lemma {:induction false} CandidatesAreSound(rules: seq<Rule>, stats: Stats, families: nat, root: real -> real)
    requires RootOk(root) && forall k :: 0 <= k < |rules| ==> rules[k].cap >= 0.0
    ensures Strengths(Candidates(rules, stats, families, root))
  {
    hide Strength, RootOk;
    if rules != [] {
      var rule := rules[|rules| - 1];
      CandidatesAreSound(rules[..|rules| - 1], stats, families, root);
      StrengthIsCapped(rule, Occurrences(rule, stats), stats.tokens, families, root);
    }
  }

  lemma {:induction false} ArrayFacts(cands: seq<Candidate>)
    requires Strengths(cands)
    ensures 0.0 <= ArrayMax(cands) <= ArraySum(cands) && 0.0 <= OtherSum(cands)
    ensures forall k :: 0 <= k < |cands| && IsArray(cands[k].key) ==> cands[k].strength <= ArrayMax(cands)
  {
    if cands != [] {
      ArrayFacts(cands[..|cands| - 1]);
    }
  }

  lemma {:induction false} SharesAddUp(cands: seq<Candidate>, arrayMax: real, arraySum: real)
    requires arraySum > 0.0
    ensures SharedSum(cands, arrayMax, arraySum) == OtherSum(cands) + ArraySum(cands) * (arrayMax / arraySum)
  {
    if cands != [] {
      SharesAddUp(cands[..|cands| - 1], arrayMax, arraySum);
    }
  }

  lemma {:induction false} SharesWithoutArrays(cands: seq<Candidate>, arrayMax: real, arraySum: real)
    requires arraySum <= 0.0
    ensures SharedSum(cands, arrayMax, arraySum) == OtherSum(cands) + ArraySum(cands)
  {
    if cands != [] {
      SharesWithoutArrays(cands[..|cands| - 1], arrayMax, arraySum);
    }
  }

  /** Together the array pair counts exactly as much as its stronger member. */
  lemma ArrayPairCountsOnce(cands: seq<Candidate>)
    requires Strengths(cands)
    ensures SharedSum(cands, ArrayMax(cands), ArraySum(cands)) == OtherSum(cands) + ArrayMax(cands)
  {
    var m, s := ArrayMax(cands), ArraySum(cands);
    ArrayFacts(cands);
    if s > 0.0 {
      SharesAddUp(cands, m, s);
      assert s * (m / s) == m;
    } else {
      SharesWithoutArrays(cands, m, s);
    }
  }

  lemma SharedIsPositive(cand: Candidate, arrayMax: real, arraySum: real)
    requires cand.strength >= 0.0 && arrayMax >= 0.0 && arraySum >= 0.0
    ensures Shared(cand, arrayMax, arraySum) >= 0.0
  {
    if arraySum > 0.0 {
      assert arrayMax / arraySum >= 0.0;
    }
  }

  lemma EntryBound(share: real, scale: real)
    requires share >= 0.0 && scale >= 0.0
    ensures 0 <= Points(share, scale)
    ensures Points(share, scale) as real <= 100.0 * Times(share, scale) + 0.5 && Points(share, scale) as real <= 200.0 * Times(share, scale)
  {
    TimesMonotone(0.0, share, scale);
    var x := share * scale;
    RoundingKeepsSign(100.0 * x);
  }

  function WeighedSum(cands: seq<Candidate>, arrayMax: real, arraySum: real, scale: real): real {
    if cands == [] then 0.0
    else WeighedSum(cands[..|cands| - 1], arrayMax, arraySum, scale) + Times(Shared(cands[|cands| - 1], arrayMax, arraySum), scale)
  }

  lemma {:induction false} WeighedSumIs(cands: seq<Candidate>, arrayMax: real, arraySum: real, scale: real)
    ensures WeighedSum(cands, arrayMax, arraySum, scale) == Times(SharedSum(cands, arrayMax, arraySum), scale)
  {
    hide Shared;
    if cands != [] {
      var n := |cands| - 1;
      WeighedSumIs(cands[..n], arrayMax, arraySum, scale);
      Distribute(SharedSum(cands[..n], arrayMax, arraySum), Shared(cands[n], arrayMax, arraySum), scale);
    }
  }

  lemma {:induction false} PatternTotals(cands: seq<Candidate>, arrayMax: real, arraySum: real, scale: real)
    requires Strengths(cands) && arrayMax >= 0.0 && arraySum >= 0.0 && scale >= 0.0
    ensures forall k :: 0 <= k < |cands| ==> PatternEntries(cands, arrayMax, arraySum, scale)[k].points >= 0
    ensures var total, weighed := Total(PatternEntries(cands, arrayMax, arraySum, scale)) as real, WeighedSum(cands, arrayMax, arraySum, scale);
            total <= 100.0 * weighed + 0.5 * |cands| as real && total <= 200.0 * weighed
  {
    hide Shared, Points, Times;
    if cands != [] {
      var n := |cands| - 1;
      var share := Shared(cands[n], arrayMax, arraySum);
      var entries := PatternEntries(cands, arrayMax, arraySum, scale);
      PatternTotals(cands[..n], arrayMax, arraySum, scale);
      SharedIsPositive(cands[n], arrayMax, arraySum);
      EntryBound(share, scale);
      assert entries == PatternEntries(cands[..n], arrayMax, arraySum, scale) + [Contribution(cands[n].key, Points(share, scale))];
      assert entries[..n] == PatternEntries(cands[..n], arrayMax, arraySum, scale);
    }
  }

  lemma BudgetPart(total: real)
    requires total > BUDGET
    ensures 0.0 <= BUDGET / total < 1.0 && total * (BUDGET / total) == BUDGET
  {
  }

  lemma FactorKeepsBudget(total: real)
    requires total >= 0.0
    ensures Share(BudgetFactor(total)) && total * BudgetFactor(total) <= BUDGET
  {
    if total > BUDGET {
      BudgetPart(total);
    } else {
      assert BUDGET / BUDGET == 1.0;
    }
  }

  lemma BudgetIsKept(total: real, score: int)
    requires total >= 0.0 && 0 <= score <= FULL
    ensures 0.0 <= BudgetScale(total, score) <= Headroom(score)
    ensures Times(total, BudgetScale(total, score)) <= 24.0 * Headroom(score)
  {
    var factor, h := BudgetFactor(total), Headroom(score);
    assert h >= 0.0;
    FactorKeepsBudget(total);
    hide BudgetScale, BudgetFactor, Headroom;
    ShareTimes(h, factor);
    TimesSwap(total, factor, h);
    TimesMonotone(total * factor, BUDGET, h);
  }

  lemma BudgetArithmetic(points: int, weighed: real, entries: nat, score: int)
    requires weighed <= 24.0 * Headroom(score) && points as real <= 100.0 * weighed + 0.5 * entries as real && points as real <= 200.0 * weighed
    requires score <= FULL
    ensures points as real <= 2400.0 * Headroom(score) + 0.5 * entries as real
    ensures points <= FULL - score
  {
    assert Headroom(score) >= 0.0;
    assert 10000.0 * Headroom(score) == (FULL - score) as real;
  }

  /** The pattern rules add nothing negative, at most their budget's share of the headroom up to half a hundredth of rounding per entry,
      and never lift the score past 100. */
  lemma PatternsKeepTheBudget(cands: seq<Candidate>, score: int)
    requires Strengths(cands) && 0 <= score <= FULL
    ensures forall k :: 0 <= k < |cands| ==> PatternsOn(cands, score)[k].points >= 0
    ensures Total(PatternsOn(cands, score)) as real <= 2400.0 * Headroom(score) + 0.5 * |cands| as real
    ensures 0 <= Total(PatternsOn(cands, score)) <= FULL - score
  {
    var m, s, total := ArrayMax(cands), ArraySum(cands), OtherSum(cands) + ArrayMax(cands);
    ArrayFacts(cands);
    BudgetIsKept(total, score);
    ArrayPairCountsOnce(cands);
    hide Times, Headroom, BudgetScale, Strengths, ArrayMax, ArraySum, OtherSum, SharedSum, PatternEntries, Total;
    var scale := BudgetScale(total, score);
    PatternTotals(cands, m, s, scale);
    WeighedSumIs(cands, m, s, scale);
    TotalSigns(PatternsOn(cands, score));
    BudgetArithmetic(Total(PatternsOn(cands, score)), Times(total, scale), |cands|, score);
  }

  // ---------------------------------------------------------------- formatting support

  predicate Counted(choice: Choice) {
    choice.samples >= 20
  }

  function CountedChoices(choices: seq<Choice>): (n: nat)
    ensures n <= |choices|
  {
    if choices == [] then 0 else CountedChoices(choices[..|choices| - 1]) + if Counted(choices[|choices| - 1]) then 1 else 0
  }

  function Samples(choices: seq<Choice>): nat {
    if choices == [] then 0
    else Samples(choices[..|choices| - 1]) + if Counted(choices[|choices| - 1]) then choices[|choices| - 1].samples else 0
  }

  function Consistency(choices: seq<Choice>): real {
    if choices == [] then 0.0
    else
      var last := choices[|choices| - 1];
      Consistency(choices[..|choices| - 1]) + if Counted(last) then Ratio(last.dominant, last.samples) else 0.0
  }

  function SampleSupport(samples: nat, target: nat, root: real -> real): real
    requires target > 0
  {
    root(AtMostOne(Ratio(samples, target)))
  }

  /** Formatting counts only beside two supporting families, with statistics and four contexts of twenty samples. */
  predicate FormattingApplies(style: Option<Style>) {
    FamilyCount(style) >= 2 && style.value.stats.Some? && CountedChoices(style.value.formatting) >= 4
  }

  function SteadyStrength(n: nat, samples: nat, sum: real, tokens: nat, root: real -> real): real
    requires n > 0
  {
    var above := (sum / n as real - 0.95) / 0.05;
    Times(Times(if above > 0.0 then above else 0.0, SampleSupport(samples, 200, root)), SampleSupport(tokens, 400, root))
  }

  function FormattingStrength(style: Style, root: real -> real): real
    requires style.stats.Some? && CountedChoices(style.formatting) > 0
  {
    SteadyStrength(CountedChoices(style.formatting), Samples(style.formatting), Consistency(style.formatting), style.stats.value.tokens, root)
  }

  function FormattingShare(strength: real, families: nat): real {
    4.0 * strength * UpToThree(families) as real / 3.0
  }

  function FormattingPoints(style: Style, families: nat, score: int, root: real -> real): int
    requires style.stats.Some? && CountedChoices(style.formatting) > 0
  {
    Points(FormattingShare(FormattingStrength(style, root), families), Headroom(score))
  }

  lemma {:induction false} ConsistencyIsBounded(choices: seq<Choice>)
    requires forall k :: 0 <= k < |choices| ==> choices[k].dominant <= choices[k].samples
    ensures 0.0 <= Consistency(choices) <= CountedChoices(choices) as real
  {
    if choices != [] {
      var last := choices[|choices| - 1];
      ConsistencyIsBounded(choices[..|choices| - 1]);
      if Counted(last) {
        RatioIsShare(last.dominant, last.samples);
      }
    }
  }

  lemma FormattingStrengthIsShare(style: Style, root: real -> real)
    requires RootOk(root) && StyleOk(style) && style.stats.Some? && CountedChoices(style.formatting) > 0
    ensures Share(FormattingStrength(style, root))
  {
    ConsistencyIsBounded(style.formatting);
    var n := CountedChoices(style.formatting) as real;
    var mean := Consistency(style.formatting) / n;
    MeanIsShare(Consistency(style.formatting), n);
    var above := (mean - 0.95) / 0.05;
    var lift := if above > 0.0 then above else 0.0;
    assert Share(lift);
    var a, b := SampleSupport(Samples(style.formatting), 200, root), SampleSupport(style.stats.value.tokens, 400, root);
    assert Ratio(Samples(style.formatting), 200) >= 0.0 && Ratio(style.stats.value.tokens, 400) >= 0.0;
    assert Share(a) && Share(b);
    hide Times, SampleSupport, Consistency, CountedChoices, Samples, RootOk, StyleOk;
    ShareTimes(lift, a);
    ShareTimes(Times(lift, a), b);
  }

  lemma MeanIsShare(sum: real, n: real)
    requires 0.0 <= sum <= n && n > 0.0
    ensures Share(sum / n)
  {
  }

  /** Formatting adds between nothing and four points' share of the headroom, and never lifts the score past 100. */
  lemma FormattingIsSmall(style: Style, families: nat, score: int, root: real -> real)
    requires RootOk(root) && StyleOk(style) && style.stats.Some? && CountedChoices(style.formatting) > 0 && 0 <= score <= FULL
    ensures 0 <= FormattingPoints(style, families, score, root) <= FULL - score
    ensures FormattingPoints(style, families, score, root) as real <= 400.0 * Headroom(score) + 0.5
  {
    var share, h := FormattingShare(FormattingStrength(style, root), families), Headroom(score);
    FormattingStrengthIsShare(style, root);
    ShareOfFour(FormattingStrength(style, root), families);
    assert h >= 0.0 && 10000.0 * h == (FULL - score) as real;
    hide FormattingStrength, FormattingShare, Headroom, Points, RootOk, StyleOk, CountedChoices;
    SmallShare(share, h);
  }

  lemma SmallShare(share: real, h: real)
    requires 0.0 <= share <= 4.0 && h >= 0.0
    ensures 0 <= Points(share, h) && Points(share, h) as real <= 400.0 * h + 0.5 && Points(share, h) as real <= 800.0 * h
  {
    hide Points;
    TimesMonotone(share, 4.0, h);
    assert Times(share, h) == share * h <= 4.0 * h;
    hide Times;
    EntryBound(share, h);
  }

  lemma ShareOfFour(strength: real, families: nat)
    requires Share(strength)
    ensures 0.0 <= FormattingShare(strength, families) <= 4.0
  {
    var third := UpToThree(families) as real / 3.0;
    assert UpToThree(families) as real <= 3.0;
    ShareTimes(strength, third);
    assert FormattingShare(strength, families) == 4.0 * (strength * third);
  }
}
