/** The report object that the score is built up in.  Each method is tied to the step of the score that it carries out, so that
    what is proved about the steps holds of the object. */
module ScoreBuilder {
  import opened Options
  import opened Rounding
  import opened Score
  import opened ScoreReport

  /** ai_score.go, lines 104-120: a set of family names filled in a loop. */
  method CountFamilies(style: Option<Style>) returns (n: nat)
    ensures n == FamilyCount(style)
  {
    if style.None? {
      return 0;
    }
    var features := style.value.features;
    var families: set<string> := {};
    hide Families;
    assert families == Families(features[..0]) by { NoFamilies(features[..0]); }
    for k := 0 to |features|
      invariant families == Families(features[..k])
    {
      var f := features[k];
      FamiliesAppend(features[..k], f);
      assert features[..k] + [f] == features[..k + 1];
      if f.evidence != REVIEW || f.score * f.reliability < 0.5 {
        assert !Supports(f);
        continue;
      }
      var family := f.key;
      if family == "prose_comments" || family == "doc_headers" {
        family := "comments";
      }
      assert Supports(f) && family == Family(f.key);
      families := families + {family};
    }
    assert features[..|features|] == features;
    return |families|;
  }

  lemma NoFamilies(features: seq<Feature>)
    requires features == []
    ensures Families(features) == {}
  {
  }

  lemma FamiliesAppend(features: seq<Feature>, f: Feature)
    ensures Families(features + [f]) == Families(features) + if Supports(f) then {Family(f.key)} else {}
  {
    hide Supports, Family;
    var all := features + [f];
    forall name | name in Families(features) ensures name in Families(all) {
      var k :| 0 <= k < |features| && Supports(features[k]) && Family(features[k].key) == name;
      assert all[k] == features[k];
    }
    if Supports(f) {
      assert all[|features|] == f;
    }
  }

  /** ai_score.go, lines 135-160. */
  method CollectCandidates(stats: Stats, families: nat, root: real -> real) returns (cands: seq<Candidate>)
    ensures cands == Candidates(Rules(stats), stats, families, root)
  {
    hide Strength;
    var rules := Rules(stats);
    cands := [];
    for k := 0 to |rules|
      invariant cands == Candidates(rules[..k], stats, families, root)
    {
      assert rules[..k + 1][..k] == rules[..k];
      var n := Occurrences(rules[k], stats);
      if n != 0 {
        cands := cands + [Candidate(rules[k].key, Strength(rules[k], n, stats.tokens, families, root))];
      }
    }
    assert rules[..|rules|] == rules;
  }

  /** ai_score.go, lines 161-175: the stronger array pattern, the sum of the pair, and the rest. */
  method MeasureCandidates(cands: seq<Candidate>) returns (arrayStrength: real, arraySum: real, total: real)
    ensures arrayStrength == ArrayMax(cands) && arraySum == ArraySum(cands) && total == OtherSum(cands) + ArrayMax(cands)
  {
    arrayStrength := 0.0;
    for k := 0 to |cands|
      invariant arrayStrength == ArrayMax(cands[..k])
    {
      assert cands[..k + 1][..k] == cands[..k];
      if IsArray(cands[k].key) && cands[k].strength > arrayStrength {
        arrayStrength := cands[k].strength;
      }
    }
    arraySum, total := 0.0, 0.0;
    for k := 0 to |cands|
      invariant arraySum == ArraySum(cands[..k]) && total == OtherSum(cands[..k])
    {
      assert cands[..k + 1][..k] == cands[..k];
      if IsArray(cands[k].key) {
        arraySum := arraySum + cands[k].strength;
      } else {
        total := total + cands[k].strength;
      }
    }
    assert cands[..|cands|] == cands;
    total := total + arrayStrength;
  }

  /** ai_score.go, lines 196-204. */
  method MeasureFormatting(choices: seq<Choice>) returns (n: nat, samples: nat, sum: real)
    ensures n == CountedChoices(choices) && samples == Samples(choices) && sum == Consistency(choices)
  {
    hide Ratio;
    n, samples, sum := 0, 0, 0.0;
    for k := 0 to |choices|
      invariant n == CountedChoices(choices[..k]) && samples == Samples(choices[..k]) && sum == Consistency(choices[..k])
    {
      assert choices[..k + 1][..k] == choices[..k];
      if choices[k].samples < 20 {
        continue;
      }
      n, samples, sum := n + 1, samples + choices[k].samples, sum + Ratio(choices[k].dominant, choices[k].samples);
    }
    assert choices[..|choices|] == choices;
  }

  method HasFlaggedTell(tells: seq<Tell>, kind: string) returns (found: bool)
    ensures found <==> FlaggedTell(tells, kind)
  {
    for k := 0 to |tells|
      invariant forall j :: 0 <= j < k ==> !(tells[j].flagged && tells[j].kind == kind)
    {
      if tells[k].flagged && tells[k].kind == kind {
        return true;
      }
    }
    return false;
  }

  lemma NoEntries(cands: seq<Candidate>, arrayMax: real, arraySum: real, scale: real)
    ensures PatternEntries(cands[..0], arrayMax, arraySum, scale) == [] && Total(PatternEntries(cands[..0], arrayMax, arraySum, scale)) == 0
  {
  }

  lemma NextEntry(cands: seq<Candidate>, k: nat, arrayMax: real, arraySum: real, scale: real)
    requires k < |cands|
    ensures var points := Points(Shared(cands[k], arrayMax, arraySum), scale);
            var entries := PatternEntries(cands[..k], arrayMax, arraySum, scale);
            && PatternEntries(cands[..k + 1], arrayMax, arraySum, scale) == entries + [Contribution(cands[k].key, points)]
            && Total(PatternEntries(cands[..k + 1], arrayMax, arraySum, scale)) == Total(entries) + points
  {
    hide Points, Shared;
    var entries := PatternEntries(cands[..k], arrayMax, arraySum, scale);
    assert cands[..k + 1][..k] == cands[..k];
    var more := PatternEntries(cands[..k + 1], arrayMax, arraySum, scale);
    assert more[..|more| - 1] == entries;
  }

  class Report {
    var score: int
    var contributions: seq<Contribution>

    ghost function View(): Tally
      reads this
    {
      Tally(score, contributions)
    }

    constructor ()
      ensures View() == Tally(0, [])
    {
      score, contributions := 0, [];
    }

    method Add(key: string, points: int)
      modifies this
      ensures View() == Tally(old(score) + points, old(contributions) + [Contribution(key, points)])
    {
      contributions := contributions + [Contribution(key, points)];
      score := score + points;
    }

    /** ai_score.go, lines 26-37: one feature, and the index of the largest entry so far. */
    method AddFeature(f: Feature, adjustment: int) returns (next: int)
      requires adjustment == Best(contributions) && score == Total(contributions)
      modifies this
      ensures next == Best(contributions) && score == Total(contributions)
      ensures contributions == if f.evidence == REVIEW then old(contributions) + [Contribution("style:" + f.key, FeaturePoints(f))] else old(contributions)
    {
      hide FeaturePoints;
      if f.evidence != REVIEW {
        return adjustment;
      }
      var points := FeaturePoints(f);
      Add("style:" + f.key, points);
      assert contributions[..|contributions| - 1] == old(contributions);
      if points > 0 && (adjustment < 0 || points > contributions[adjustment].points) {
        return |contributions| - 1;
      }
      return adjustment;
    }

    /** ai_score.go, lines 19-44. */
    method AddStyle(style: Style) returns (measured: bool)
      requires View() == Tally(0, [])
      modifies this
      ensures View() == StyleStep(Some(style))
      ensures measured <==> HasReview(style.features)
    {
      hide FeaturePoints, Tenths, HasReview, Best;
      measured := false;
      var adjustment := -1;
      NothingIsBest(contributions);
      var features := style.features;
      NoReview(features[..0]);
      for k := 0 to |features|
        invariant contributions == StyleEntries(features[..k]) && score == Total(contributions)
        invariant adjustment == Best(contributions)
        invariant measured <==> HasReview(features[..k])
      {
        assert features[..k + 1][..k] == features[..k];
        ReviewAppend(features, k);
        adjustment := AddFeature(features[k], adjustment);
        measured := measured || features[k].evidence == REVIEW;
      }
      assert features[..|features|] == features;
      if adjustment >= 0 {
        var target := Tenths(style.score * 100.0);
        contributions := contributions[adjustment := contributions[adjustment].(points := contributions[adjustment].points + target - score)];
        score := target;
      }
    }

    /** ai_score.go, lines 45-52. */
    method AddFloor(key: string, floor: real)
      modifies this
      ensures View() == FloorStep(old(View()), key, floor)
    {
      hide FloorPoints;
      Add(key, FloorPoints(score, floor));
    }

    /** ai_score.go, lines 123-189. */
    method AddPatterns(style: Option<Style>, root: real -> real)
      modifies this
      ensures View() == PatternStep(old(View()), style, root)
    {
      hide Candidates, Points, Shared, BudgetScale, ArrayMax, ArraySum, OtherSum, PatternEntries, Total;
      NoPatterns(score);
      if style.None? || style.value.stats.None? {
        assert contributions + [] == contributions;
        return;
      }
      var families := CountFamilies(style);
      var cands := CollectCandidates(style.value.stats.value, families, root);
      var arrayStrength, arraySum, total := MeasureCandidates(cands);
      var scale := BudgetScale(total, score);
      ghost var before := View();
      NoEntries(cands, arrayStrength, arraySum, scale);
      assert contributions == before.entries + [];
      for k := 0 to |cands|
        invariant contributions == before.entries + PatternEntries(cands[..k], arrayStrength, arraySum, scale)
        invariant score == before.score + Total(PatternEntries(cands[..k], arrayStrength, arraySum, scale))
      {
        var points := Points(Shared(cands[k], arrayStrength, arraySum), scale);
        NextEntry(cands, k, arrayStrength, arraySum, scale);
        Add(cands[k].key, points);
      }
      assert cands[..|cands|] == cands;
    }

    /** ai_score.go, lines 191-214. */
    method AddFormatting(style: Option<Style>, root: real -> real)
      modifies this
      ensures View() == FormattingStep(old(View()), style, root)
    {
      hide FamilyCount, Points, FormattingShare, Headroom, SteadyStrength, CountedChoices, Samples, Consistency;
      var families := CountFamilies(style);
      if families < 2 {
        return;
      }
      NoStyleNoFamilies(style);
      if style.value.stats.None? {
        return;
      }
      var n, samples, sum := MeasureFormatting(style.value.formatting);
      if n < 4 {
        return;
      }
      var strength := SteadyStrength(n, samples, sum, style.value.stats.value.tokens, root);
      Add("formatting_support", Points(FormattingShare(strength, families), Headroom(score)));
    }

    method BestContribution() returns (best: int)
      ensures best == Best(contributions)
    {
      best := -1;
      for k := 0 to |contributions|
        invariant best == Best(contributions[..k])
      {
        assert contributions[..k + 1][..k] == contributions[..k];
        if contributions[k].points > 0 && (best < 0 || contributions[k].points > contributions[best].points) {
          best := k;
        }
      }
      assert contributions[..|contributions|] == contributions;
    }

    /** ai_score.go, lines 90-100. */
    method Finish()
      requires Total(contributions) == score
      modifies this
      ensures View() == FinishStep(old(View()))
    {
      hide Total, ToTenth;
      var target := ToTenth(score);
      var best := BestContribution();
      if best >= 0 {
        contributions := contributions[best := contributions[best].(points := contributions[best].points + target - score)];
      }
      score := target;
    }
  }

  lemma NothingIsBest(entries: seq<Contribution>)
    requires entries == []
    ensures Best(entries) == -1
  {
  }

  lemma NoReview(features: seq<Feature>)
    requires features == []
    ensures !HasReview(features)
  {
  }

  lemma NoStyleNoFamilies(style: Option<Style>)
    ensures style.None? ==> FamilyCount(style) == 0
  {
  }

  lemma ReviewAppend(features: seq<Feature>, k: nat)
    requires k < |features|
    ensures HasReview(features[..k + 1]) <==> HasReview(features[..k]) || features[k].evidence == REVIEW
  {
    var before, after := features[..k], features[..k + 1];
    if HasReview(before) {
      var j :| 0 <= j < k && before[j].evidence == REVIEW;
      assert after[j].evidence == REVIEW;
    }
    if features[k].evidence == REVIEW {
      assert after[k].evidence == REVIEW;
    }
    if HasReview(after) {
      var j :| 0 <= j <= k && after[j].evidence == REVIEW;
      assert j < k ==> before[j].evidence == REVIEW;
    }
  }

  /** ai_score.go, lines 18-63: style, dictionary, patterns and formatting. */
  method AddMeasurements(report: Report, sub: Submission, usable: bool, root: real -> real) returns (measured: bool)
    requires report.View() == Tally(0, [])
    modifies report
    ensures report.View() == AfterFormatting(sub, usable, root)
    ensures measured <==> (sub.style.Some? && HasReview(sub.style.value.features)) || (usable && !sub.parseError)
  {
    hide StyleStep, FloorStep, PatternStep, FormattingStep, HasReview, Tenths;
    measured := false;
    if sub.style.Some? {
      measured := report.AddStyle(sub.style.value);
    } else {
      EmptyStyle();
    }
    if usable && !sub.parseError {
      measured := true;
      report.AddFloor("dictionary", Tenths(sub.coverage * 100.0) as real / 100.0);
    }
    report.AddPatterns(sub.style, root);
    report.AddFormatting(sub.style, root);
  }

  /** ai_score.go, lines 64-86: the two kinds of flagged tells, each a floor. */
  method AddTells(report: Report, sub: Submission, root: real -> real) returns (measured: bool)
    modifies report
    ensures report.View() == AttributionStep(ToolStep(old(report.View()), sub, root), sub)
    ensures measured <==> (FlaggedTell(sub.tells, TOOL_FILE) && sub.style.Some? && sub.style.value.stats.Some?) || FlaggedTell(sub.tells, CHAT_TEXT)
  {
    hide FloorStep, FlaggedTell, ToolFloor, FamilyCount;
    measured := false;
    var tool := HasFlaggedTell(sub.tells, TOOL_FILE);
    if tool && sub.style.Some? && sub.style.value.stats.Some? {
      measured := true;
      var families := CountFamilies(sub.style);
      report.AddFloor("tool_artifact", ToolFloor(sub.style.value.stats.value.tokens, families, root));
    }
    var chat := HasFlaggedTell(sub.tells, CHAT_TEXT);
    if chat {
      measured := true;
      report.AddFloor("explicit_attribution", 90.0);
    }
  }

  /** ai_score.go, lines 16-102.  No report when nothing was measured and nothing was added. */
  method OverallScore(sub: Submission, usable: bool, root: real -> real) returns (r: Report?)
    requires SubmissionOk(sub) && RootOk(root)
    ensures r == null <==> !Measured(sub, usable) && BeforeFinish(sub, usable, root).entries == []
    ensures r != null ==> fresh(r) && r.View() == Overall(sub, usable, root)
  {
    EvidenceOnlyAdds(sub, usable, root);
    hide Total, SubmissionOk, RootOk, AfterFormatting, ToolStep, AttributionStep, FinishStep, FlaggedTell, HasReview;
    var report := new Report();
    var measured := AddMeasurements(report, sub, usable, root);
    var told := AddTells(report, sub, root);
    if !measured && !told && report.contributions == [] {
      return null;
    }
    report.Finish();
    return report;
  }

  lemma EmptyStyle()
    ensures StyleStep(None) == Tally(0, [])
  {
  }
}
