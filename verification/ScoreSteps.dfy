/** How the score is built up: style, floors, formatting and the order of the steps. */
module ScoreSteps {
  import opened Options
  import opened Rounding
  import opened Score
  import opened ScoreReport
  import opened ScoreLaw

  // ---------------------------------------------------------------- style

  function Worth(f: Feature): real {
    f.score * f.reliability * f.weight
  }

  /** What the review features are worth together: the style score is this out of the weight of all four of them. */
  function Evidence(features: seq<Feature>): real {
    if features == [] then 0.0
    else
      var f := features[|features| - 1];
      Evidence(features[..|features| - 1]) + if f.evidence == REVIEW then Worth(f) else 0.0
  }

  /** In hundredths of a point. */
  function PointsWorth(worth: real): real {
    10000.0 * worth / 5.75
  }

  lemma FeaturePointsAreNear(f: Feature)
    ensures PointsWorth(Worth(f)) - 0.5 <= FeaturePoints(f) as real <= PointsWorth(Worth(f)) + 0.5
  {
    var x := 100.0 * f.score * f.reliability * f.weight / REVIEW_WEIGHT;
    RoundAwayIsNearest(100.0 * x);
    Hundredfold(f.score, f.reliability, f.weight);
  }

  lemma Hundredfold(a: real, b: real, c: real)
    ensures 100.0 * (100.0 * a * b * c / REVIEW_WEIGHT) == 10000.0 * (a * b * c) / 5.75
  {
    var p := a * b * c;
    assert 100.0 * a * b == 100.0 * (a * b);
    assert 100.0 * (a * b) * c == 100.0 * p;
  }

  /** The style points add up to the evidence out of the weight of all four review features, but for half a hundredth each. */
  lemma {:induction false} StylePointsAddUp(features: seq<Feature>)
    ensures var exact, n := PointsWorth(Evidence(features)), |StyleEntries(features)| as real;
            exact - 0.5 * n <= Total(StyleEntries(features)) as real <= exact + 0.5 * n
  {
    hide FeaturePoints, Worth;
    if features != [] {
      var n, f := |features| - 1, features[|features| - 1];
      StylePointsAddUp(features[..n]);
      if f.evidence == REVIEW {
        FeaturePointsAreNear(f);
        TotalAppend(StyleEntries(features[..n]), [Contribution("style:" + f.key, FeaturePoints(f))]);
        OneTotal(Contribution("style:" + f.key, FeaturePoints(f)));
      }
    }
  }

  /** The entries before reconciling are those of the review features, in order. */
  lemma {:induction false} StyleEntriesAre(features: seq<Feature>, entry: Contribution)
    ensures entry in StyleEntries(features) <==>
            exists k :: 0 <= k < |features| && features[k].evidence == REVIEW && entry == Contribution("style:" + features[k].key, FeaturePoints(features[k]))
  {
    hide FeaturePoints;
    if features != [] {
      var n := |features| - 1;
      StyleEntriesAre(features[..n], entry);
      forall k | 0 <= k < n ensures features[..n][k] == features[k] {
      }
    }
  }

  /** A review feature supports its family from a product of score and reliability of one half on. */
  predicate IsSupport(f: Feature) {
    f.evidence == "review" && f.score * f.reliability >= 0.5
  }

  lemma SupportIs(f: Feature)
    ensures Supports(f) <==> IsSupport(f)
  {
  }

  /** Two families support each other exactly when two well supported review features belong to different ones. */
  lemma TwoFamilies(style: Style)
    ensures FamilyCount(Some(style)) >= 2 <==>
            exists j, k :: 0 <= j < |style.features| && 0 <= k < |style.features| && IsSupport(style.features[j]) && IsSupport(style.features[k])
                        && Family(style.features[j].key) != Family(style.features[k].key)
  {
    hide Supports, IsSupport, Family, Families;
    var families := Families(style.features);
    if j, k :| 0 <= j < |style.features| && 0 <= k < |style.features| && IsSupport(style.features[j]) && IsSupport(style.features[k])
               && Family(style.features[j].key) != Family(style.features[k].key) {
      var f, g := Family(style.features[j].key), Family(style.features[k].key);
      SupportCounts(style.features, j);
      SupportCounts(style.features, k);
      assert {f, g} <= families;
      SubsetIsSmaller({f, g}, families);
    }
    if |families| >= 2 {
      var f :| f in families;
      assert |families - {f}| >= 1;
      var g :| g in families - {f};
      var j := SomeSupport(style.features, f);
      var k := SomeSupport(style.features, g);
    }
  }

  lemma SupportCounts(features: seq<Feature>, k: nat)
    requires k < |features| && IsSupport(features[k])
    ensures Family(features[k].key) in Families(features)
  {
    hide Family;
    assert Supports(features[k]);
  }

  lemma SomeSupport(features: seq<Feature>, family: string) returns (k: nat)
    requires family in Families(features)
    ensures k < |features| && IsSupport(features[k]) && Family(features[k].key) == family
  {
    hide Supports, IsSupport, Family;
    k :| 0 <= k < |features| && Supports(features[k]) && Family(features[k].key) == family;
    SupportIs(features[k]);
  }

  lemma {:induction false} SubsetIsSmaller(a: set<string>, b: set<string>)
    requires a <= b
    ensures |a| <= |b|
    decreases |a|
  {
    if x :| x in a {
      SubsetIsSmaller(a - {x}, b - {x});
    }
  }

  /** The two kinds of comment are one family; every other key is its own. */
  lemma FamiliesOfKeys(key: string, other: string)
    ensures Family(key) == Family(other) <==>
            key == other || (key in {"prose_comments", "doc_headers", "comments"} && other in {"prose_comments", "doc_headers", "comments"})
  {
  }

  /** Reconciling changes the first of the largest positive entries only, and of that only the points. */
  lemma OnlyTheLargestIsChanged(entries: seq<Contribution>, target: int, b: nat)
    requires b < |entries| && entries[b].points > 0
    requires (forall k :: 0 <= k < b ==> entries[k].points < entries[b].points) && (forall k :: b < k < |entries| ==> entries[k].points <= entries[b].points)
    ensures var r := Reconcile(entries, target);
            && |r| == |entries| && r[b].key == entries[b].key && r[b].points == entries[b].points + target - Total(entries)
            && forall k :: 0 <= k < |entries| && k != b ==> r[k] == entries[k]
  {
    hide Total, Best;
    BestIsLargest(entries);
    assert Best(entries) >= 0;
    SameLargest(entries, b, Best(entries));
  }

  lemma SameLargest(entries: seq<Contribution>, b: nat, c: nat)
    requires b < |entries| && c < |entries|
    requires (forall k :: 0 <= k < b ==> entries[k].points < entries[b].points) && (forall k :: b < k < |entries| ==> entries[k].points <= entries[b].points)
    requires (forall k :: 0 <= k < c ==> entries[k].points < entries[c].points) && (forall k :: 0 <= k < |entries| ==> entries[k].points <= entries[c].points)
    ensures b == c
  {
    var x, y := entries[b].points, entries[c].points;
    assert b < c ==> x < y && y <= x;
    assert c < b ==> y < x && x <= y;
  }

  /** A floor adds one entry with what is missing to the rounded floor. */
  lemma FloorEntry(t: Tally, key: string, floor: real)
    requires t.score >= 0 && floor >= 0.0
    ensures FloorStep(t, key, floor).entries == t.entries + [Contribution(key, Max(t.score, Hundredths(floor)) - t.score)]
  {
    hide FloorPoints, Hundredths;
    FloorLifts(t.score, floor);
  }

  // ---------------------------------------------------------------- formatting

  function CountedPlaces(choices: seq<Choice>): set<nat> {
    set k: nat | k < |choices| && choices[k].samples >= 20
  }

  /** Contexts of twenty samples and more are counted. */
  lemma {:induction false} CountedAre(choices: seq<Choice>)
    ensures CountedChoices(choices) == |CountedPlaces(choices)|
  {
    if choices == [] {
      assert CountedPlaces(choices) == {};
    } else {
      var n := |choices| - 1;
      CountedAre(choices[..n]);
      if choices[n].samples >= 20 {
        assert CountedPlaces(choices) == CountedPlaces(choices[..n]) + {n};
      } else {
        assert CountedPlaces(choices) == CountedPlaces(choices[..n]);
      }
    }
  }

  /** Counts, samples and consistency add up over the contexts, and one context of twenty samples or more gives its own. */
  lemma {:induction false} ChoicesAddUp(choices: seq<Choice>, last: Choice)
    ensures CountedChoices(choices + [last]) == CountedChoices(choices) + (if last.samples >= 20 then 1 else 0)
    ensures Samples(choices + [last]) == Samples(choices) + (if last.samples >= 20 then last.samples else 0)
    ensures last.samples >= 20 ==> (Consistency(choices + [last]) - Consistency(choices)) * last.samples as real == last.dominant as real
    ensures last.samples < 20 ==> Consistency(choices + [last]) == Consistency(choices)
    ensures Samples([]) == 0 && Consistency([]) == 0.0
  {
    assert (choices + [last])[..|choices|] == choices;
  }

  /** Formatting adds an entry exactly when two families support it, there are counts, and at least four contexts are counted. */
  lemma FormattingNeeds(t: Tally, style: Style, root: real -> real)
    ensures var after := FormattingStep(t, Some(style), root);
            if FamilyCount(Some(style)) >= 2 && style.stats.Some? && |CountedPlaces(style.formatting)| >= 4
            then |after.entries| == |t.entries| + 1 && after.entries[..|t.entries|] == t.entries && after.entries[|t.entries|].key == "formatting_support"
            else after == t
  {
    hide FamilyCount, FormattingPoints, CountedPlaces;
    CountedAre(style.formatting);
  }

  /** Formatting counts for nothing exactly up to a mean consistency of 95%, or where the root vanishes at the share of 200 samples or of 400 tokens. */
  lemma SteadyVanishes(n: nat, samples: nat, sum: real, tokens: nat, root: real -> real)
    requires n > 0
    ensures SteadyStrength(n, samples, sum, tokens, root) == 0.0 <==>
            || sum <= 0.95 * n as real
            || root(var s := samples as real / 200.0; if s < 1.0 then s else 1.0) == 0.0
            || root(var s := tokens as real / 400.0; if s < 1.0 then s else 1.0) == 0.0
  {
    var mean := sum / n as real;
    var above := (mean - 0.95) / 0.05;
    assert mean * n as real == sum;
    MeanAgainst(mean, n as real, sum);
    assert above > 0.0 <==> mean > 0.95;
    var lift := if above > 0.0 then above else 0.0;
    var a, b := SampleSupport(samples, 200, root), SampleSupport(tokens, 400, root);
    hide Times, SampleSupport;
    NoZeroFactor(lift, a);
    NoZeroFactor(Times(lift, a), b);
  }

  lemma MeanAgainst(mean: real, n: real, sum: real)
    requires n > 0.0 && mean * n == sum
    ensures mean > 0.95 <==> sum > 0.95 * n
  {
    if mean > 0.95 {
      PositiveTimes(mean - 0.95, n);
      assert (mean - 0.95) * n == sum - 0.95 * n;
    } else {
      TimesMonotone(mean, 0.95, n);
    }
  }

  lemma PositiveTimes(x: real, y: real)
    requires x > 0.0 && y > 0.0
    ensures x * y > 0.0
  {
  }

  /** Above 95% it grows in proportion, to its full strength at 100%. */
  lemma SteadyUnderConstantRoot(n: nat, samples: nat, sum: real, tokens: nat, root: real -> real, c: real)
    requires n > 0 && sum >= 0.95 * n as real && forall x :: root(x) == c
    ensures SteadyStrength(n, samples, sum, tokens, root) * n as real == 20.0 * (sum - 0.95 * n as real) * (c * c)
  {
    var mean := sum / n as real;
    var above := (mean - 0.95) / 0.05;
    assert mean * n as real == sum;
    MeanAgainst(mean, n as real, sum);
    assert above == 20.0 * (mean - 0.95);
    var lift := if above > 0.0 then above else 0.0;
    assert lift == above;
    var a, b := SampleSupport(samples, 200, root), SampleSupport(tokens, 400, root);
    assert a == c && b == c;
    assert lift * n as real == 20.0 * (sum - 0.95 * n as real) by {
      assert (mean - 0.95) * n as real == mean * n as real - 0.95 * n as real;
    }
    Reorder(lift, c, n as real);
  }

  lemma Reorder(x: real, c: real, n: real)
    ensures Times(Times(x, c), c) * n == (x * n) * (c * c)
  {
    assert (x * c) * c == x * (c * c);
    assert x * (c * c) * n == (x * n) * (c * c);
  }

  /** Three or more families carry the whole of four points' share of what the score leaves, two carry two thirds. */
  lemma FormattingPointsAre(style: Style, families: nat, score: int, root: real -> real)
    requires style.stats.Some? && CountedChoices(style.formatting) > 0 && families >= 2
    ensures var exact := 100.0 * Remaining((if families == 2 then 8.0 / 3.0 else 4.0) * FormattingStrength(style, root), score);
            exact - 0.5 <= FormattingPoints(style, families, score, root) as real <= exact + 0.5
  {
    hide FormattingStrength, Points, Times;
    var strength := FormattingStrength(style, root);
    assert FormattingShare(strength, families) == (if families == 2 then 8.0 / 3.0 else 4.0) * strength;
    PointsAreNear(FormattingShare(strength, families), Headroom(score));
  }

  // ---------------------------------------------------------------- the tool floor

  /** The floor of a tool file: with a root that is c at the share of tokens, c times five points and five thirds for each of up to three families. */
  lemma ToolFloorIs(tokens: nat, families: nat, root: real -> real)
    ensures ToolFloor(tokens, families, root) * 3.0 == root(tokens as real / (tokens + 100) as real) * (15.0 + 5.0 * (if families < 3 then families else 3) as real)
  {
    CorroborationGrows(families, families);
    var r, k := root(Ratio(tokens, tokens + 100)), Corroboration(families);
    hide Corroboration;
    assert Times(10.0 * r, k) == r * (10.0 * k);
    assert r * (10.0 * k) * 3.0 == r * (30.0 * k);
  }

  // ---------------------------------------------------------------- all steps

  /** The style score counts exactly when some review feature gives a point. */
  lemma StyleScoreIs(style: Style)
    requires StyleOk(style)
    ensures StyleScore(Some(style)) ==
            if exists k :: 0 <= k < |style.features| && style.features[k].evidence == REVIEW && FeaturePoints(style.features[k]) > 0
            then Tenths(style.score * 100.0) else 0
  {
    var entries := StyleEntries(style.features);
    BestIsLargest(entries);
    hide FeaturePoints, StyleEntries, Tenths, StyleOk;
    if Best(entries) >= 0 {
      var e := entries[Best(entries)];
      assert e in entries;
      StyleEntriesAre(style.features, e);
    }
    if k :| 0 <= k < |style.features| && style.features[k].evidence == REVIEW && FeaturePoints(style.features[k]) > 0 {
      var e := Contribution("style:" + style.features[k].key, FeaturePoints(style.features[k]));
      StyleEntriesAre(style.features, e);
      var i :| 0 <= i < |entries| && entries[i] == e;
    }
  }

  /** The score, step by step: the larger of style and dictionary, then patterns, then formatting on what these leave, then the two floors of the
      tells, and the whole rounded to a tenth. */
  lemma ScoreIsBuiltUp(sub: Submission, usable: bool, root: real -> real)
    requires SubmissionOk(sub) && RootOk(root)
    ensures var base := Max(StyleScore(sub.style), if usable && !sub.parseError then Tenths(sub.coverage * 100.0) else 0);
            var patterns := base + Total(PatternsOn(PatternCandidates(sub.style, root), base));
            var formatted := patterns + if FormattingApplies(sub.style) then FormattingPoints(sub.style.value, FamilyCount(sub.style), patterns, root) else 0;
            var tool := if FlaggedTell(sub.tells, TOOL_FILE) && sub.style.Some? && sub.style.value.stats.Some?
                        then Hundredths(ToolFloor(sub.style.value.stats.value.tokens, FamilyCount(sub.style), root)) else 0;
            Overall(sub, usable, root).score == ToTenth(Max(Max(formatted, tool), if FlaggedTell(sub.tells, CHAT_TEXT) then 9000 else 0))
  {
    hide RootOk, StyleScore, StyleOk, StyleStep, DictionaryStep, FlaggedTell, Tenths, Headroom, SubmissionOk, PatternsOn, FormattingPoints,
      FormattingApplies, PatternCandidates, ToolFloor, Hundredths, Total, ToTenth, FamilyCount, BeforePatterns, Balanced, AttributionStep, ToolStep, Max;
    var before := BeforePatterns(sub, usable);
    BaseScore(sub, usable);
    PatternsBalance(before, sub.style, root);
    FormattingBalances(PatternStep(before, sub.style, root), sub.style, root);
    TellsScore(AfterFormatting(sub, usable, root), sub, root);
  }

  lemma BaseScore(sub: Submission, usable: bool)
    requires SubmissionOk(sub)
    ensures Balanced(BeforePatterns(sub, usable)) && (sub.style.Some? ==> StyleOk(sub.style.value))
    ensures BeforePatterns(sub, usable).score == Max(StyleScore(sub.style), if usable && !sub.parseError then Tenths(sub.coverage * 100.0) else 0)
  {
    StyleOfOk(sub);
    hide Tenths, StyleScore, SubmissionOk, StyleOk, StyleStep, FloorStep, Total;
    StyleBalances(sub.style);
    DictionaryBalances(StyleStep(sub.style), sub, usable);
  }

  lemma TellsScore(t: Tally, sub: Submission, root: real -> real)
    requires Balanced(t) && RootOk(root)
    ensures var tool := if FlaggedTell(sub.tells, TOOL_FILE) && sub.style.Some? && sub.style.value.stats.Some?
                        then Hundredths(ToolFloor(sub.style.value.stats.value.tokens, FamilyCount(sub.style), root)) else 0;
            AttributionStep(ToolStep(t, sub, root), sub).score == Max(Max(t.score, tool), if FlaggedTell(sub.tells, CHAT_TEXT) then 9000 else 0)
  {
    assert t.score >= 0;
    hide FlaggedTell, RootOk, Balanced, FloorStep, ToolFloor, Hundredths, FamilyCount;
    if FlaggedTell(sub.tells, TOOL_FILE) && sub.style.Some? && sub.style.value.stats.Some? {
      var floor := ToolFloor(sub.style.value.stats.value.tokens, FamilyCount(sub.style), root);
      ToolFloorIsSmall(sub.style.value.stats.value.tokens, FamilyCount(sub.style), root);
      FloorBalances(t, "tool_artifact", floor);
    }
    FloorBalances(ToolStep(t, sub, root), "explicit_attribution", 90.0);
    NinetyPoints();
    BalancedIsPositive(ToolStep(t, sub, root));
  }

  lemma BalancedIsPositive(t: Tally)
    requires Balanced(t)
    ensures t.score >= 0
  {
  }
}
