/** The score report: built up in place, one kind of evidence after the other. */
module ScoreReport {
  import opened Options
  import opened Rounding
  import opened Score

  /** The score and the entries that explain it. */
  datatype Tally = Tally(score: int, entries: seq<Contribution>)

  /** What the report promises at every point: the entries add up to the score, and the score is between 0 and 100. */
  predicate Balanced(t: Tally) {
    Total(t.entries) == t.score && 0 <= t.score <= FULL
  }

  // ---------------------------------------------------------------- the steps

  function StyleStep(style: Option<Style>): Tally {
    if style.None? then Tally(0, [])
    else
      var entries := StyleEntries(style.value.features);
      if Best(entries) < 0 then Tally(Total(entries), entries)
      else Tally(Tenths(style.value.score * 100.0), Reconcile(entries, Tenths(style.value.score * 100.0)))
  }

  function FloorStep(t: Tally, key: string, floor: real): Tally {
    var points := FloorPoints(t.score, floor);
    Tally(t.score + points, t.entries + [Contribution(key, points)])
  }

  function DictionaryFloor(sub: Submission): real {
    Tenths(sub.coverage * 100.0) as real / 100.0
  }

  function DictionaryStep(t: Tally, sub: Submission, usable: bool): Tally {
    if usable && !sub.parseError then FloorStep(t, "dictionary", DictionaryFloor(sub)) else t
  }

  function PatternCandidates(style: Option<Style>, root: real -> real): seq<Candidate> {
    if style.Some? && style.value.stats.Some?
    then Candidates(Rules(style.value.stats.value), style.value.stats.value, FamilyCount(style), root)
    else []
  }

  function PatternStep(t: Tally, style: Option<Style>, root: real -> real): Tally {
    var added := PatternsOn(PatternCandidates(style, root), t.score);
    Tally(t.score + Total(added), t.entries + added)
  }

  function FormattingStep(t: Tally, style: Option<Style>, root: real -> real): Tally {
    if !FormattingApplies(style) then t
    else
      var points := FormattingPoints(style.value, FamilyCount(style), t.score, root);
      Tally(t.score + points, t.entries + [Contribution("formatting_support", points)])
  }

  predicate FlaggedTell(tells: seq<Tell>, kind: string) {
    exists k :: 0 <= k < |tells| && tells[k].flagged && tells[k].kind == kind
  }

  function ToolFloor(tokens: nat, families: nat, root: real -> real): real {
    Times(10.0 * root(Ratio(tokens, tokens + 100)), Corroboration(families))
  }

  function ToolStep(t: Tally, sub: Submission, root: real -> real): Tally {
    if FlaggedTell(sub.tells, TOOL_FILE) && sub.style.Some? && sub.style.value.stats.Some?
    then FloorStep(t, "tool_artifact", ToolFloor(sub.style.value.stats.value.tokens, FamilyCount(sub.style), root)) else t
  }

  function AttributionStep(t: Tally, sub: Submission): Tally {
    if FlaggedTell(sub.tells, CHAT_TEXT) then FloorStep(t, "explicit_attribution", 90.0) else t
  }

  function FinishStep(t: Tally): Tally {
    Tally(ToTenth(t.score), Reconcile(t.entries, ToTenth(t.score)))
  }

  function BeforePatterns(sub: Submission, usable: bool): Tally {
    DictionaryStep(StyleStep(sub.style), sub, usable)
  }

  function AfterFormatting(sub: Submission, usable: bool, root: real -> real): Tally {
    FormattingStep(PatternStep(BeforePatterns(sub, usable), sub.style, root), sub.style, root)
  }

  function BeforeFinish(sub: Submission, usable: bool, root: real -> real): Tally {
    AttributionStep(ToolStep(AfterFormatting(sub, usable, root), sub, root), sub)
  }

  /** Some review feature or floor was measured, whether or not it gave points. */
  predicate Measured(sub: Submission, usable: bool) {
    || (sub.style.Some? && HasReview(sub.style.value.features))
    || (usable && !sub.parseError)
    || (FlaggedTell(sub.tells, TOOL_FILE) && sub.style.Some? && sub.style.value.stats.Some?)
    || FlaggedTell(sub.tells, CHAT_TEXT)
  }

  // ---------------------------------------------------------------- every step keeps the balance and never lowers the score

  lemma StyleBalances(style: Option<Style>)
    requires style.Some? ==> StyleOk(style.value)
    ensures Balanced(StyleStep(style)) && StyleStep(style).score % 10 == 0
    ensures StyleStep(style).score == StyleScore(style)
  {
    if style.Some? {
      var entries := StyleEntries(style.value.features);
      StyleEntriesAreSound(style.value.features);
      TotalSigns(entries);
      TenthsInRange(style.value.score * 100.0);
      ReconcileTotals(entries, Tenths(style.value.score * 100.0));
    }
  }

  lemma FloorBalances(t: Tally, key: string, floor: real)
    requires Balanced(t) && 0.0 <= floor <= 100.0
    ensures Balanced(FloorStep(t, key, floor)) && FloorStep(t, key, floor).score >= t.score
    ensures FloorStep(t, key, floor).score == Max(t.score, Hundredths(floor))
  {
    hide FloorPoints, Hundredths, Total;
    FloorLifts(t.score, floor);
    FloorIsAtMostFull(floor);
    TotalAppend(t.entries, [Contribution(key, FloorPoints(t.score, floor))]);
    OneTotal(Contribution(key, FloorPoints(t.score, floor)));
  }

  lemma FloorIsAtMostFull(floor: real)
    requires floor <= 100.0
    ensures Hundredths(floor) <= FULL
  {
    RoundAwayMonotone(100.0 * floor, 10000.0);
    RoundAwayOfInt(FULL);
  }

  lemma OneTotal(entry: Contribution)
    ensures Total([entry]) == entry.points
  {
    assert [entry][..0] == [];
  }

  lemma DictionaryBalances(t: Tally, sub: Submission, usable: bool)
    requires Balanced(t) && SubmissionOk(sub)
    ensures Balanced(DictionaryStep(t, sub, usable)) && DictionaryStep(t, sub, usable).score >= t.score
    ensures usable && !sub.parseError ==> DictionaryStep(t, sub, usable).score == Max(t.score, Tenths(sub.coverage * 100.0))
  {
    StyleOfOk(sub);
    var floor := Tenths(sub.coverage * 100.0);
    TenthsInRange(sub.coverage * 100.0);
    HundredthsOfTenths(sub.coverage * 100.0);
    hide Tenths, Hundredths, Balanced, FloorStep, SubmissionOk;
    if usable && !sub.parseError {
      assert DictionaryFloor(sub) == floor as real / 100.0;
      FloorBalances(t, "dictionary", DictionaryFloor(sub));
    }
  }

  lemma PatternsBalance(t: Tally, style: Option<Style>, root: real -> real)
    requires Balanced(t) && RootOk(root)
    ensures var after := PatternStep(t, style, root);
            && Balanced(after) && after.score >= t.score
            && (after.score - t.score) as real <= 2400.0 * Headroom(t.score) + 2.0
            && |after.entries| <= |t.entries| + 4
  {
    var cands := PatternCandidates(style, root);
    CandidatesOk(style, root);
    hide RootOk, PatternCandidates, PatternsOn, Strengths, Headroom;
    PatternsKeepTheBudget(cands, t.score);
    TotalAppend(t.entries, PatternsOn(cands, t.score));
    PatternsOnLength(cands, t.score);
  }

  lemma PatternsOnLength(cands: seq<Candidate>, score: int)
    ensures |PatternsOn(cands, score)| == |cands|
  {
    hide PatternEntries, ArrayMax, ArraySum, OtherSum, BudgetScale;
  }

  lemma CandidatesOk(style: Option<Style>, root: real -> real)
    requires RootOk(root)
    ensures Strengths(PatternCandidates(style, root)) && |PatternCandidates(style, root)| <= 4
  {
    if style.Some? && style.value.stats.Some? {
      CandidatesAreSound(Rules(style.value.stats.value), style.value.stats.value, FamilyCount(style), root);
    }
  }

  lemma FormattingBalances(t: Tally, style: Option<Style>, root: real -> real)
    requires Balanced(t) && RootOk(root) && (style.Some? ==> StyleOk(style.value))
    ensures Balanced(FormattingStep(t, style, root)) && FormattingStep(t, style, root).score >= t.score
    ensures (FormattingStep(t, style, root).score - t.score) as real <= 400.0 * Headroom(t.score) + 0.5
  {
    hide RootOk, StyleOk;
    assert Headroom(t.score) >= 0.0;
    if FormattingApplies(style) {
      var points := FormattingPoints(style.value, FamilyCount(style), t.score, root);
      FormattingIsSmall(style.value, FamilyCount(style), t.score, root);
      hide FormattingPoints, Headroom;
      TotalAppend(t.entries, [Contribution("formatting_support", points)]);
      OneTotal(Contribution("formatting_support", points));
    }
  }

  lemma ToolFloorIsSmall(tokens: nat, families: nat, root: real -> real)
    requires RootOk(root)
    ensures 0.0 <= ToolFloor(tokens, families, root) <= 10.0
  {
    RatioIsShare(tokens, tokens + 100);
    assert Share(root(Ratio(tokens, tokens + 100)));
    assert UpToThree(families) as real <= 3.0;
    assert Share(Corroboration(families));
    ShareTimes(10.0 * root(Ratio(tokens, tokens + 100)), Corroboration(families));
  }

  lemma TellsBalance(t: Tally, sub: Submission, root: real -> real)
    requires Balanced(t) && RootOk(root)
    ensures var after := AttributionStep(ToolStep(t, sub, root), sub);
            && Balanced(after) && after.score >= t.score
            && (FlaggedTell(sub.tells, CHAT_TEXT) ==> after.score >= 9000)
            && (FlaggedTell(sub.tells, TOOL_FILE) && sub.style.Some? && sub.style.value.stats.Some? ==>
                  after.score >= Hundredths(ToolFloor(sub.style.value.stats.value.tokens, FamilyCount(sub.style), root)))
  {
    hide FlaggedTell, RootOk, Balanced, FloorStep, ToolFloor, Hundredths;
    if sub.style.Some? && sub.style.value.stats.Some? {
      var floor := ToolFloor(sub.style.value.stats.value.tokens, FamilyCount(sub.style), root);
      ToolFloorIsSmall(sub.style.value.stats.value.tokens, FamilyCount(sub.style), root);
      FloorBalances(t, "tool_artifact", floor);
    }
    FloorBalances(ToolStep(t, sub, root), "explicit_attribution", 90.0);
    NinetyPoints();
  }

  lemma NinetyPoints()
    ensures Hundredths(90.0) == 9000
  {
    RoundAwayOfInt(9000);
  }

  lemma FinishBalances(t: Tally)
    requires Balanced(t)
    ensures Balanced(FinishStep(t)) && FinishStep(t).score % 10 == 0 && t.score - 5 <= FinishStep(t).score <= t.score + 5
  {
    ToTenthIsNearest(t.score);
    ToTenthMonotone(t.score, FULL);
    ToTenthIsNearest(FULL);
    ReconcileTotals(t.entries, ToTenth(t.score));
  }

  /** Rounding to a tenth keeps every floor that is itself a tenth. */
  lemma FinishKeepsFloor(t: Tally, floor: int)
    requires floor % 10 == 0 && floor <= t.score
    ensures floor <= FinishStep(t).score
  {
    ToTenthMonotone(floor, t.score);
    ToTenthIsNearest(floor);
  }

  lemma NoPatterns(score: int)
    ensures PatternsOn([], score) == [] && Total(PatternsOn([], score)) == 0
  {
    PatternsOnLength([], score);
  }

  // ---------------------------------------------------------------- the whole score

  function Overall(sub: Submission, usable: bool, root: real -> real): Tally {
    FinishStep(BeforeFinish(sub, usable, root))
  }

  lemma EvidenceOnlyAdds(sub: Submission, usable: bool, root: real -> real)
    requires SubmissionOk(sub) && RootOk(root)
    ensures var t := BeforeFinish(sub, usable, root);
            && Balanced(t) && t.score >= StyleScore(sub.style)
            && (usable && !sub.parseError ==> t.score >= Tenths(sub.coverage * 100.0))
            && (FlaggedTell(sub.tells, CHAT_TEXT) ==> t.score >= 9000)
    ensures Balanced(BeforePatterns(sub, usable))
  {
    StyleOfOk(sub);
    var style := StyleStep(sub.style);
    StyleBalances(sub.style);
    DictionaryBalances(style, sub, usable);
    var before := BeforePatterns(sub, usable);
    hide RootOk, Balanced, StyleScore, StyleOk, StyleStep, DictionaryStep, PatternStep, FormattingStep, ToolStep, AttributionStep, FlaggedTell, Tenths, Headroom, SubmissionOk;
    PatternsBalance(before, sub.style, root);
    FormattingBalances(PatternStep(before, sub.style, root), sub.style, root);
    TellsBalance(AfterFormatting(sub, usable, root), sub, root);
  }

  /** The entries of the final report add up to its score, a multiple of 0.1 between 0 and 100.  Later evidence never lowers the score: it stays at
      or above the style score, the dictionary floor, and 90 for a flagged attribution. */
  lemma ScoreIsReconciled(sub: Submission, usable: bool, root: real -> real)
    requires SubmissionOk(sub) && RootOk(root)
    ensures var final := Overall(sub, usable, root);
            && Total(final.entries) == final.score && 0 <= final.score <= FULL && final.score % 10 == 0
            && final.score >= StyleScore(sub.style)
            && (usable && !sub.parseError ==> final.score >= Tenths(sub.coverage * 100.0))
            && (FlaggedTell(sub.tells, CHAT_TEXT) ==> final.score >= 9000)
  {
    var t := BeforeFinish(sub, usable, root);
    EvidenceOnlyAdds(sub, usable, root);
    StyleOfOk(sub);
    StyleBalances(sub.style);
    TenthsInRange(sub.coverage * 100.0);
    hide RootOk, StyleScore, StyleStep, BeforeFinish, FinishStep, FlaggedTell, Total, Tenths, SubmissionOk, StyleOk;
    FinishBalances(t);
    FinishKeepsFloor(t, StyleScore(sub.style));
    if usable && !sub.parseError {
      FinishKeepsFloor(t, Tenths(sub.coverage * 100.0));
    }
    if FlaggedTell(sub.tells, CHAT_TEXT) {
      FinishKeepsFloor(t, 9000);
    }
  }

  lemma StyleOfOk(sub: Submission)
    requires SubmissionOk(sub)
    ensures sub.style.Some? ==> StyleOk(sub.style.value)
    ensures 0.0 <= sub.coverage * 100.0 <= 100.0
  {
    hide StyleOk;
  }

  // ---------------------------------------------------------------- when a contribution ends below zero

  /** The rounded style points exceed the rounded style score by more than the largest of them. */
  predicate StyleOvershoots(style: Option<Style>) {
    style.Some? && Overshoots(StyleEntries(style.value.features), Tenths(style.value.score * 100.0))
  }

  lemma StyleGoesNegative(style: Option<Style>)
    requires style.Some? ==> StyleOk(style.value)
    ensures SomeNegative(StyleStep(style).entries) <==> StyleOvershoots(style)
  {
    if style.Some? {
      var entries := StyleEntries(style.value.features);
      StyleEntriesAreSound(style.value.features);
      hide StyleEntries, StyleOk, Tenths;
      ReconcileGoesNegative(entries, Tenths(style.value.score * 100.0));
    }
  }

  lemma FloorKeepsSigns(t: Tally, key: string, floor: real)
    requires t.score >= 0 && floor >= 0.0
    ensures SomeNegative(FloorStep(t, key, floor).entries) <==> SomeNegative(t.entries)
  {
    hide FloorPoints, SomeNegative;
    FloorLifts(t.score, floor);
    OneSign(Contribution(key, FloorPoints(t.score, floor)));
    AppendSigns(t.entries, [Contribution(key, FloorPoints(t.score, floor))]);
  }

  lemma OneSign(entry: Contribution)
    requires entry.points >= 0
    ensures !SomeNegative([entry])
  {
  }

  lemma DictionaryKeepsSigns(t: Tally, sub: Submission, usable: bool)
    requires Balanced(t) && SubmissionOk(sub)
    ensures SomeNegative(DictionaryStep(t, sub, usable).entries) <==> SomeNegative(t.entries)
  {
    StyleOfOk(sub);
    TenthsInRange(sub.coverage * 100.0);
    hide Tenths, FloorStep, SubmissionOk, SomeNegative;
    FloorKeepsSigns(t, "dictionary", DictionaryFloor(sub));
  }

  lemma PatternsKeepSigns(t: Tally, style: Option<Style>, root: real -> real)
    requires Balanced(t) && RootOk(root)
    ensures SomeNegative(PatternStep(t, style, root).entries) <==> SomeNegative(t.entries)
  {
    var cands := PatternCandidates(style, root);
    CandidatesOk(style, root);
    hide RootOk, PatternCandidates, PatternsOn, Strengths;
    PatternsKeepTheBudget(cands, t.score);
    AppendSigns(t.entries, PatternsOn(cands, t.score));
  }

  lemma FormattingKeepsSigns(t: Tally, style: Option<Style>, root: real -> real)
    requires Balanced(t) && RootOk(root) && (style.Some? ==> StyleOk(style.value))
    ensures SomeNegative(FormattingStep(t, style, root).entries) <==> SomeNegative(t.entries)
  {
    hide RootOk, StyleOk, SomeNegative;
    if FormattingApplies(style) {
      var points := FormattingPoints(style.value, FamilyCount(style), t.score, root);
      FormattingIsSmall(style.value, FamilyCount(style), t.score, root);
      hide FormattingPoints;
      OneSign(Contribution("formatting_support", points));
      AppendSigns(t.entries, [Contribution("formatting_support", points)]);
    }
  }

  lemma TellsKeepSigns(t: Tally, sub: Submission, root: real -> real)
    requires Balanced(t) && RootOk(root)
    ensures SomeNegative(AttributionStep(ToolStep(t, sub, root), sub).entries) <==> SomeNegative(t.entries)
  {
    TellsBalance(t, sub, root);
    hide FlaggedTell, RootOk, FloorStep, ToolFloor, SomeNegative, Total;
    if sub.style.Some? && sub.style.value.stats.Some? {
      var floor := ToolFloor(sub.style.value.stats.value.tokens, FamilyCount(sub.style), root);
      ToolFloorIsSmall(sub.style.value.stats.value.tokens, FamilyCount(sub.style), root);
      FloorKeepsSigns(t, "tool_artifact", floor);
      FloorBalances(t, "tool_artifact", floor);
    }
    FloorKeepsSigns(ToolStep(t, sub, root), "explicit_attribution", 90.0);
  }

  /** Before the last rounding an entry is negative exactly when the style step overshot. */
  lemma EvidenceKeepsSigns(sub: Submission, usable: bool, root: real -> real)
    requires SubmissionOk(sub) && RootOk(root)
    ensures SomeNegative(BeforeFinish(sub, usable, root).entries) <==> StyleOvershoots(sub.style)
  {
    StyleOfOk(sub);
    var style := StyleStep(sub.style);
    StyleBalances(sub.style);
    StyleGoesNegative(sub.style);
    DictionaryBalances(style, sub, usable);
    DictionaryKeepsSigns(style, sub, usable);
    var before := BeforePatterns(sub, usable);
    hide RootOk, Balanced, StyleScore, StyleOk, StyleOvershoots, StyleStep, DictionaryStep, PatternStep, FormattingStep, ToolStep, AttributionStep,
      FlaggedTell, Tenths, Headroom, SubmissionOk, SomeNegative;
    PatternsBalance(before, sub.style, root);
    PatternsKeepSigns(before, sub.style, root);
    FormattingBalances(PatternStep(before, sub.style, root), sub.style, root);
    FormattingKeepsSigns(PatternStep(before, sub.style, root), sub.style, root);
    TellsKeepSigns(AfterFormatting(sub, usable, root), sub, root);
  }

  /** A contribution of the report is negative exactly when one of the two reconcilings takes away more than the largest entry holds: that of
      the style points, or the last one to a tenth. */
  lemma ContributionsGoNegative(sub: Submission, usable: bool, root: real -> real)
    requires SubmissionOk(sub) && RootOk(root)
    ensures var t := BeforeFinish(sub, usable, root);
            SomeNegative(Overall(sub, usable, root).entries) <==> StyleOvershoots(sub.style) || Overshoots(t.entries, ToTenth(t.score))
  {
    var t := BeforeFinish(sub, usable, root);
    EvidenceKeepsSigns(sub, usable, root);
    hide *;
        ReconcileGoesNegative(t.entries, ToTenth(t.score));
  }

  /** The last reconciling overshoots only a report whose every entry is below 0.04, and only downwards. */
  lemma LastOvershootIsSmall(sub: Submission, usable: bool, root: real -> real)
    requires SubmissionOk(sub) && RootOk(root)
    requires var t := BeforeFinish(sub, usable, root); Overshoots(t.entries, ToTenth(t.score))
    ensures var t := BeforeFinish(sub, usable, root);
            t.score > ToTenth(t.score) && forall k :: 0 <= k < |t.entries| ==> t.entries[k].points < 4
  {
    var t := BeforeFinish(sub, usable, root);
    EvidenceOnlyAdds(sub, usable, root);
    hide BeforeFinish;
    ToTenthIsNearest(t.score);
    BestIsLargest(t.entries);
  }

  function TinyFeatures(): seq<Feature> {
    [Feature("prose_comments", REVIEW, 0.0, 1.0, 2.0), Feature("doc_headers", REVIEW, 0.001, 1.0, 0.75), Feature("defensive_idioms", REVIEW, 0.001, 1.0, 1.5)]
  }

  /** Two review features so weak that they round up to 0.01 and 0.03 while the style score rounds to nothing. */
  function Tiny(): Submission {
    Submission(Some(Style(0.0, TinyFeatures(), Some(Stats(400, 0, 0, 0, map[])), [])), false, 0.0, [])
  }

  lemma TinyPoints()
    ensures FeaturePoints(TinyFeatures()[0]) == 0 && FeaturePoints(TinyFeatures()[1]) == 1 && FeaturePoints(TinyFeatures()[2]) == 3
  {
    FloorUnique(0.5, 0);
    assert 100.0 * (100.0 * 0.001 * 1.0 * 0.75 / REVIEW_WEIGHT) == 7.5 / 5.75;
    FloorUnique(7.5 / 5.75 + 0.5, 1);
    assert 100.0 * (100.0 * 0.001 * 1.0 * 1.5 / REVIEW_WEIGHT) == 15.0 / 5.75;
    FloorUnique(15.0 / 5.75 + 0.5, 3);
  }

  lemma OneMoreEntry(features: seq<Feature>, f: Feature)
    requires f.evidence == REVIEW
    ensures StyleEntries(features + [f]) == StyleEntries(features) + [Contribution("style:" + f.key, FeaturePoints(f))]
  {
    assert (features + [f])[..|features|] == features;
  }

  lemma ThreeEntries(a: Contribution, b: Contribution, c: Contribution)
    requires a.points == 0 && b.points == 1 && c.points == 3
    ensures Best([a, b, c]) == 2 && Total([a, b, c]) == 4
  {
    var e1, e2, e3 := [a], [a, b], [a, b, c];
    assert e1[..0] == [] && e2[..1] == e1 && e3[..2] == e2;
    assert Best(e1) == -1 && Total(e1) == 0;
    assert Best(e2) == 1 && Total(e2) == 1;
  }

  lemma TinyOvershoots()
    ensures StyleOvershoots(Tiny().style)
  {
    var f := TinyFeatures();
    TinyPoints();
    RoundAwayOfInt(0);
    assert Tenths(0.0 * 100.0) == 0;
    hide FeaturePoints, Tenths, Best, Total;
    assert [] + [f[0]] == [f[0]] && [f[0]] + [f[1]] == [f[0], f[1]] && [f[0], f[1]] + [f[2]] == f;
    OneMoreEntry([], f[0]);
    OneMoreEntry([f[0]], f[1]);
    OneMoreEntry([f[0], f[1]], f[2]);
    var e := StyleEntries(f);
    assert e == [e[0], e[1], e[2]];
    ThreeEntries(e[0], e[1], e[2]);
  }

  /** No contribution need stay non-negative. */
  lemma ContributionCanBeNegative(root: real -> real)
    requires RootOk(root)
    ensures SubmissionOk(Tiny()) && SomeNegative(Overall(Tiny(), false, root).entries)
  {
    TinyOvershoots();
    assert SubmissionOk(Tiny());
    hide *;
    ContributionsGoNegative(Tiny(), false, root);
  }
}
