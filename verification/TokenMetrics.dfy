/** Token metrics of a whole cohort: grouping, shared corpora, and one held-out model per submission. */
module TokenMetrics {
  import opened Options
  import opened TokenCounts
  import opened PeerModel
  import opened Surprisals
  import opened Signature
  import opened PeerGroups

  const MIN_METRIC_TOKENS: nat := 50
  const MIN_METRIC_COHORT: nat := 5

  /** What the peers say about a submission, before rounding. */
  datatype Peer = Peer(crossEntropy: real, deviation: real, unknown: nat,
                       normalizedCrossEntropy: real, normalizedDeviation: real, series: seq<seq<real>>)

  datatype Metrics = Metrics(tokenCount: nat, cohortSize: nat, excludedPeers: int, peer: Option<Peer>)

  // ---------------------------------------------------------------- the metrics by definition

  function Mean(values: seq<real>): real {
    if values == [] then 0.0 else Total(values) / |values| as real
  }

  /** A submission against the two corpora counted without its group. */
  ghost function PeerOf(rawRest: seq<Gram>, normRest: seq<Gram>, log2: real -> real, v: Source): Peer {
    var raw := Flat(SeriesOf(rawRest, log2, Streams(v, false)));
    var series := SeriesOf(normRest, log2, Streams(v, true));
    Peer(Mean(raw), SquaredDeviation(raw, Mean(raw)), UnknownCount(rawRest, Streams(v, false)),
         Mean(Flat(series)), SquaredDeviation(Flat(series), Mean(Flat(series))), series)
  }

  ghost function PeerAgainst(groups: set<Group>, log2: real -> real, v: Source): Peer {
    PeerOf(OtherCorpus(groups, GroupOf(v).norm, false), OtherCorpus(groups, GroupOf(v).norm, true), log2, v)
  }

  /** The metrics of one submission, given the cohort's groups and its number of eligible submissions. */
  ghost function MetricsOf(groups: set<Group>, eligible: nat, log2: real -> real, v: Source): Option<Metrics> {
    var total := |Grams(Streams(v, false))|;
    var cohort := if |groups| > 0 then |groups| - 1 else 0;
    if total < MIN_METRIC_TOKENS then None
    else if total < MIN_PEER_TOKENS then Some(Metrics(total, |groups|, 0, None))
    else if |groups| < MIN_METRIC_COHORT then Some(Metrics(total, cohort, eligible - 1 - cohort, None))
    else Some(Metrics(total, cohort, eligible - 1 - cohort, Some(PeerAgainst(groups, log2, v))))
  }

  /** A submission's metrics do not change when the cohort is submitted in another order. */
  lemma MetricsIgnoreSubmissionOrder(files: seq<Source>, others: seq<Source>, sha256: seq<byte> -> nat, log2: real -> real, v: Source)
    requires multiset(files) == multiset(others)
    ensures MetricsOf(Groups(files, sha256), CountEligible(files), log2, v)
            == MetricsOf(Groups(others, sha256), CountEligible(others), log2, v)
  {
    GroupsIgnoreOrder(files, others, sha256);
  }

  lemma SeriesIgnoresOrder(rest: seq<Gram>, other: seq<Gram>, log2: real -> real, streams: seq<seq<Word>>)
    requires multiset(rest) == multiset(other)
    ensures SeriesOf(rest, log2, streams) == SeriesOf(other, log2, streams)
  {
    forall i | 0 <= i < |streams| ensures FileSurprisals(rest, log2, streams[i]) == FileSurprisals(other, log2, streams[i]) {
      SurprisalsIgnoreOrder(rest, other, log2, streams[i]);
    }
    hide FileSurprisals;
  }

  lemma SurprisalsIgnoreOrder(rest: seq<Gram>, other: seq<Gram>, log2: real -> real, words: seq<Word>)
    requires multiset(rest) == multiset(other)
    ensures FileSurprisals(rest, log2, words) == FileSurprisals(other, log2, words)
  {
    hide Model, Seen;
    forall p: Word, t: Word ensures Model(rest, p, t) == Model(other, p, t) {
      ModelIgnoresOrder(rest, other, p, t);
    }
    ModelIgnoresOrder(rest, other, START, START);
    assert KnownWords(rest, words) == KnownWords(other, words);
  }

  /** Submitting one more structural copy of a peer leaves every normalised number of every submission as it was. */
  lemma DuplicateKeepsNormalizedMetrics(files: seq<Source>, sha256: seq<byte> -> nat, log2: real -> real,
                                        peer: Source, copy: Source, v: Source)
    requires CollisionFree(sha256) && peer in files && Eligible(peer) && GroupOf(copy).norm == GroupOf(peer).norm
    ensures PeerAgainst(Groups(files + [copy], sha256), log2, v).series == PeerAgainst(Groups(files, sha256), log2, v).series
    ensures PeerAgainst(Groups(files + [copy], sha256), log2, v).normalizedCrossEntropy
            == PeerAgainst(Groups(files, sha256), log2, v).normalizedCrossEntropy
  {
    var before, after := Groups(files, sha256), Groups(files + [copy], sha256);
    DuplicateAddsNoStream(files, sha256, peer, copy);
    GroupsAreOnePerStream(files, sha256);
    GroupsAreOnePerStream(files + [copy], sha256);
    NormalizedCorpusSeesStreamsOnly(before, after, GroupOf(v).norm);
    SeriesIgnoresOrder(OtherCorpus(before, GroupOf(v).norm, true), OtherCorpus(after, GroupOf(v).norm, true), log2, Streams(v, true));
  }

  // ---------------------------------------------------------------- grouping

  function SignatureOf(sha256: seq<byte> -> nat, v: Source): nat {
    Digest(sha256, GroupOf(v).norm)
  }

  function RawDigest(sha256: seq<byte> -> nat, v: Source): nat {
    Digest(sha256, GroupOf(v).raw)
  }

  /** Among the first n submissions: one entry per signature, at the least raw digest. */
  ghost predicate GroupsUpTo(files: seq<Source>, n: nat, sha256: seq<byte> -> nat, groups: map<nat, nat>)
    requires n <= |files|
  {
    && (forall i :: 0 <= i < n && Eligible(files[i]) ==> SignatureOf(sha256, files[i]) in groups)
    && (forall d :: d in groups ==> groups[d] < n && Eligible(files[groups[d]]) && SignatureOf(sha256, files[groups[d]]) == d)
    && (forall d, i :: d in groups && 0 <= i < n && Eligible(files[i]) && SignatureOf(sha256, files[i]) == d
          ==> RawDigest(sha256, files[groups[d]]) <= RawDigest(sha256, files[i]))
  }

  lemma GroupsStep(files: seq<Source>, n: nat, sha256: seq<byte> -> nat, groups: map<nat, nat>)
    requires n < |files| && GroupsUpTo(files, n, sha256, groups)
    ensures var d := SignatureOf(sha256, files[n]);
            var better := d !in groups || RawDigest(sha256, files[n]) < RawDigest(sha256, files[groups[d]]);
            GroupsUpTo(files, n + 1, sha256, if Eligible(files[n]) && better then groups[d := n] else groups)
  {
    hide SignatureOf, RawDigest, Eligible;
  }

  /** ai_metrics.go, lines 205-221. */
  method GroupSubmissions(files: seq<Source>, rawTotals: seq<nat>, sha256: seq<byte> -> nat)
    returns (groups: map<nat, nat>, signatures: seq<nat>, eligible: nat)
    requires |rawTotals| == |files| && forall i :: 0 <= i < |files| ==> rawTotals[i] == |Grams(Streams(files[i], false))|
    ensures GroupsUpTo(files, |files|, sha256, groups) && eligible == CountEligible(files)
    ensures |signatures| == |files|
    ensures forall i :: 0 <= i < |files| && Eligible(files[i]) ==> signatures[i] == SignatureOf(sha256, files[i])
  {
    groups, signatures, eligible := map[], [], 0;
    for i := 0 to |files|
      invariant GroupsUpTo(files, i, sha256, groups) && eligible == CountEligible(files[..i])
      invariant |signatures| == i
      invariant forall k :: 0 <= k < i && Eligible(files[k]) ==> signatures[k] == SignatureOf(sha256, files[k])
    {
      assert files[..i + 1][..i] == files[..i];
      GroupsStep(files, i, sha256, groups);
      if rawTotals[i] < MIN_PEER_TOKENS {
        signatures := signatures + [0];
      } else {
        eligible := eligible + 1;
        var signature := TokenSignature(files[i], true, sha256);
        signatures := signatures + [signature];
        var replace := signature !in groups;
        if !replace {
          var own := TokenSignature(files[i], false, sha256);
          var current := TokenSignature(files[groups[signature]], false, sha256);
          replace := own < current;
        }
        if replace {
          groups := groups[signature := i];
        }
      }
    }
    assert files[..|files|] == files;
  }

  /** Each signature's entry is one of the cohort's groups, and each group has one signature. */
  lemma EntriesAreGroups(files: seq<Source>, sha256: seq<byte> -> nat, groups: map<nat, nat>, g: Group)
    requires CollisionFree(sha256) && GroupsUpTo(files, |files|, sha256, groups)
    ensures g in Groups(files, sha256) <==> exists d :: d in groups && GroupOf(files[groups[d]]) == g
  {
    if d :| d in groups && GroupOf(files[groups[d]]) == g {
      var v := files[groups[d]];
      forall u | u in files && Eligible(u) && GroupOf(u).norm == GroupOf(v).norm
        ensures Digest(sha256, GroupOf(v).raw) <= Digest(sha256, GroupOf(u).raw)
      {
        var i :| 0 <= i < |files| && files[i] == u;
        assert SignatureOf(sha256, files[i]) == d;
        assert RawDigest(sha256, v) <= RawDigest(sha256, files[i]);
      }
      assert IsRepresentative(files, sha256, v);
    }
    if g in Groups(files, sha256) {
      var v :| v in files && IsRepresentative(files, sha256, v) && GroupOf(v) == g;
      var i :| 0 <= i < |files| && files[i] == v;
      var d := SignatureOf(sha256, files[i]);
      EntryOf(files, sha256, groups, v, i, d);
      assert d in groups && GroupOf(files[groups[d]]) == g;
    }
  }

  lemma EntryOf(files: seq<Source>, sha256: seq<byte> -> nat, groups: map<nat, nat>, v: Source, i: nat, d: nat)
    requires CollisionFree(sha256) && GroupsUpTo(files, |files|, sha256, groups)
    requires IsRepresentative(files, sha256, v) && i < |files| && files[i] == v && d == SignatureOf(sha256, v)
    ensures d in groups && groups[d] < |files| && GroupOf(files[groups[d]]) == GroupOf(v)
  {
    var w := files[groups[d]];
    assert RawDigest(sha256, w) <= RawDigest(sha256, files[i]);
    DigestIdentifies(sha256, GroupOf(w).norm, GroupOf(v).norm);
    assert w in files && Digest(sha256, GroupOf(v).raw) <= Digest(sha256, GroupOf(w).raw);
    DigestIdentifies(sha256, GroupOf(w).raw, GroupOf(v).raw);
  }

  // ---------------------------------------------------------------- shared corpora

  /** The entries already added, whatever order the keys came in. */
  ghost predicate Added(files: seq<Source>, groups: map<nat, nat>, done: set<nat>, order: seq<Group>)
    requires forall d :: d in groups ==> groups[d] < |files|
  {
    && done <= groups.Keys && |order| == |done| && Distinct(order)
    && forall g :: g in order <==> exists d :: d in done && GroupOf(files[groups[d]]) == g
  }

  lemma EntriesDiffer(files: seq<Source>, sha256: seq<byte> -> nat, groups: map<nat, nat>, d: nat, e: nat)
    requires GroupsUpTo(files, |files|, sha256, groups) && d in groups && e in groups && d != e
    ensures GroupOf(files[groups[d]]) != GroupOf(files[groups[e]])
  {
    assert SignatureOf(sha256, files[groups[d]]) == d && SignatureOf(sha256, files[groups[e]]) == e;
  }

  lemma AddEntry(files: seq<Source>, sha256: seq<byte> -> nat, groups: map<nat, nat>, done: set<nat>, order: seq<Group>, d: nat)
    requires GroupsUpTo(files, |files|, sha256, groups)
    requires Added(files, groups, done, order) && d in groups && d !in done
    ensures Added(files, groups, done + {d}, order + [GroupOf(files[groups[d]])])
  {
    hide GroupOf, SignatureOf, RawDigest, Eligible;
    var next := GroupOf(files[groups[d]]);
    var after := order + [next];
    forall e | e in done ensures GroupOf(files[groups[e]]) != next {
      EntriesDiffer(files, sha256, groups, d, e);
    }
    assert next !in order;
    forall g ensures g in after <==> exists e :: e in done + {d} && GroupOf(files[groups[e]]) == g {
      assert g in after <==> g in order || g == next;
      if g in order {
        var e :| e in done && GroupOf(files[groups[e]]) == g;
        assert e in done + {d};
      }
      if g == next {
        assert d in done + {d};
      }
    }
    assert Distinct(after);
  }

  lemma CorpusGrows(c: Counts, order: seq<Group>, counts: Counts, g: Group, normalized: bool)
    requires Represents(c, Corpus(order, normalized)) && Represents(counts, g.Contribution(normalized))
    ensures Represents(AddCountsTo(c, counts), Corpus(order + [g], normalized))
  {
    assert (order + [g])[..|order|] == order;
    AddingIsCountingTogether(c, Corpus(order, normalized), counts, g.Contribution(normalized));
  }

  /** One entry of the map. */
  method AddToCorpora(raw: Tally, norm: Tally, rawCounts: Counts, normCounts: Counts, ghost order: seq<Group>, ghost g: Group)
    requires raw != norm
    requires Represents(raw.Value(), Corpus(order, false)) && Represents(norm.Value(), Corpus(order, true))
    requires Represents(rawCounts, g.Contribution(false)) && Represents(normCounts, g.Contribution(true))
    modifies raw, norm
    ensures Represents(raw.Value(), Corpus(order + [g], false)) && Represents(norm.Value(), Corpus(order + [g], true))
  {
    hide Represents, Group.Contribution, Corpus, AddCountsTo;
    CorpusGrows(raw.Value(), order, rawCounts, g, false);
    CorpusGrows(norm.Value(), order, normCounts, g, true);
    raw.Add(rawCounts);
    norm.Add(normCounts);
  }

  /** ai_metrics.go, lines 222-226. */
  method BuildCorpora(files: seq<Source>, sha256: seq<byte> -> nat, groups: map<nat, nat>, rawCounts: seq<Counts>, normCounts: seq<Counts>)
    returns (rawCorpus: Counts, normCorpus: Counts, ghost order: seq<Group>)
    requires CollisionFree(sha256) && GroupsUpTo(files, |files|, sha256, groups)
    requires forall d :: d in groups ==> groups[d] < |files|
    requires |rawCounts| == |normCounts| == |files|
    requires forall i :: 0 <= i < |files| ==> Represents(rawCounts[i], GroupOf(files[i]).Contribution(false))
    requires forall i :: 0 <= i < |files| ==> Represents(normCounts[i], GroupOf(files[i]).Contribution(true))
    ensures Lists(order, Groups(files, sha256)) && |order| == |groups|
    ensures Represents(rawCorpus, Corpus(order, false)) && Represents(normCorpus, Corpus(order, true))
  {
    hide Represents, GroupOf, Group.Contribution, Corpus, AddCountsTo, Added, GroupsUpTo, CollisionFree, Lists, Groups;
    var raw := new Tally();
    var norm := new Tally();
    EmptyIsRepresented();
    order := [];
    var rest := groups.Keys;
    NothingAdded(files, groups);
    assert groups.Keys - rest == {};
    while rest != {}
      invariant fresh(raw) && fresh(norm) && raw != norm
      invariant rest <= groups.Keys && Added(files, groups, groups.Keys - rest, order)
      invariant Represents(raw.Value(), Corpus(order, false)) && Represents(norm.Value(), Corpus(order, true))
      decreases |rest|
    {
      var d :| d in rest;
      var i := groups[d];
      AddToCorpora(raw, norm, rawCounts[i], normCounts[i], order, GroupOf(files[i]));
      AddEntry(files, sha256, groups, groups.Keys - rest, order, d);
      assert groups.Keys - (rest - {d}) == groups.Keys - rest + {d};
      order, rest := order + [GroupOf(files[i])], rest - {d};
    }
    AllEntriesListed(files, sha256, groups, groups.Keys - rest, order);
    rawCorpus, normCorpus := raw.Value(), norm.Value();
  }

  lemma NothingAdded(files: seq<Source>, groups: map<nat, nat>)
    requires forall d :: d in groups ==> groups[d] < |files|
    ensures Added(files, groups, {}, [])
  {
  }

  lemma EmptyIsRepresented()
    ensures Represents(EMPTY, Corpus([], false)) && Represents(EMPTY, Corpus([], true))
  {
  }

  lemma AllEntriesListed(files: seq<Source>, sha256: seq<byte> -> nat, groups: map<nat, nat>, done: set<nat>, order: seq<Group>)
    requires CollisionFree(sha256) && GroupsUpTo(files, |files|, sha256, groups)
    requires Added(files, groups, done, order) && done == groups.Keys
    ensures Lists(order, Groups(files, sha256)) && |order| == |groups|
  {
    hide GroupsUpTo, GroupOf;
    forall g: Group ensures g in order <==> g in Groups(files, sha256) {
      EntriesAreGroups(files, sha256, groups, g);
    }
  }

  // ---------------------------------------------------------------- one submission

  lemma MeanIs(values: seq<real>, n: nat, mean: real)
    requires n == |values| && mean * n as real == Total(values) && (n == 0 ==> mean == 0.0)
    ensures mean == Mean(values)
  {
    if n > 0 {
      assert mean * n as real / n as real == mean;
    }
  }

  method MeasurePeer(v: Source, rawCorpus: Counts, normCorpus: Counts, rawOwn: Counts, normOwn: Counts, log2: real -> real,
                     ghost groups: set<Group>) returns (peer: Peer)
    requires HoldsOut(rawCorpus, rawOwn, OtherCorpus(groups, GroupOf(v).norm, false))
    requires HoldsOut(normCorpus, normOwn, OtherCorpus(groups, GroupOf(v).norm, true))
    ensures peer == PeerAgainst(groups, log2, v)
  {
    hide HoldsOut, OtherCorpus, SeriesOf, UnknownCount, SquaredDeviation, Mean, Flat;
    ghost var norm := GroupOf(v).norm;
    var series, moments, unknown := PeerSurprisals(v, rawCorpus, rawOwn, false, log2, OtherCorpus(groups, norm, false));
    MeanIs(Flat(series), moments.n, moments.mean);
    var normSeries, normMoments, _ := PeerSurprisals(v, normCorpus, normOwn, true, log2, OtherCorpus(groups, norm, true));
    MeanIs(Flat(normSeries), normMoments.n, normMoments.mean);
    peer := Peer(moments.mean, moments.m2, unknown, normMoments.mean, normMoments.m2, normSeries);
  }

  /** ai_metrics.go, lines 204-253, rounding and windows aside.  Every row is the one the definition gives,
      whichever order the submissions and the map keys come in. */
  method SetTokenMetrics(files: seq<Source>, sha256: seq<byte> -> nat, log2: real -> real) returns (results: seq<Option<Metrics>>)
    requires CollisionFree(sha256)
    ensures |results| == |files|
    ensures forall i :: 0 <= i < |files| ==> results[i] == MetricsOf(Groups(files, sha256), CountEligible(files), log2, files[i])
  {
    hide Represents, MetricsOf, HoldsOut, GroupsUpTo;
    var rawCounts, normCounts, rawTotals := CountAll(files);
    var groups, signatures, eligible := GroupSubmissions(files, rawTotals, sha256);
    EntriesAreIndices(files, sha256, groups);
    var rawCorpus, normCorpus; ghost var order;
    rawCorpus, normCorpus, order := BuildCorpora(files, sha256, groups, rawCounts, normCounts);
    ListsAsMultiset(order, Groups(files, sha256));
    results := [];
    for i := 0 to |files|
      invariant |results| == i
      invariant forall k :: 0 <= k < i ==> results[k] == MetricsOf(Groups(files, sha256), eligible, log2, files[k])
    {
      var row := MetricsRow(files, i, sha256, log2, groups, signatures, eligible, rawCounts, normCounts, rawTotals[i],
                            rawCorpus, normCorpus, order);
      results := results + [row];
    }
  }

  lemma EntriesAreIndices(files: seq<Source>, sha256: seq<byte> -> nat, groups: map<nat, nat>)
    requires GroupsUpTo(files, |files|, sha256, groups)
    ensures forall d :: d in groups ==> groups[d] < |files|
  {
  }

  method CountAll(files: seq<Source>) returns (rawCounts: seq<Counts>, normCounts: seq<Counts>, rawTotals: seq<nat>)
    ensures |rawCounts| == |normCounts| == |rawTotals| == |files|
    ensures forall i :: 0 <= i < |files| ==> Represents(rawCounts[i], GroupOf(files[i]).Contribution(false))
    ensures forall i :: 0 <= i < |files| ==> Represents(normCounts[i], GroupOf(files[i]).Contribution(true))
    ensures forall i :: 0 <= i < |files| ==> rawTotals[i] == |Grams(Streams(files[i], false))|
  {
    rawCounts, normCounts, rawTotals := [], [], [];
    for i := 0 to |files|
      invariant |rawCounts| == |normCounts| == |rawTotals| == i
      invariant forall k :: 0 <= k < i ==> Represents(rawCounts[k], GroupOf(files[k]).Contribution(false))
      invariant forall k :: 0 <= k < i ==> Represents(normCounts[k], GroupOf(files[k]).Contribution(true))
      invariant forall k :: 0 <= k < i ==> rawTotals[k] == |Grams(Streams(files[k], false))|
    {
      hide Tallies;
      var raw := CountTokens(files[i], false);
      var norm := CountTokens(files[i], true);
      rawCounts, normCounts, rawTotals := rawCounts + [raw], normCounts + [norm], rawTotals + [raw.total];
    }
  }

  /** ai_metrics.go, lines 228-251: one row. */
  method MetricsRow(files: seq<Source>, i: nat, sha256: seq<byte> -> nat, log2: real -> real,
                    groups: map<nat, nat>, signatures: seq<nat>, eligible: nat,
                    rawCounts: seq<Counts>, normCounts: seq<Counts>, total: nat,
                    rawCorpus: Counts, normCorpus: Counts, ghost order: seq<Group>) returns (row: Option<Metrics>)
    requires CollisionFree(sha256) && i < |files| && |rawCounts| == |normCounts| == |signatures| == |files|
    requires GroupsUpTo(files, |files|, sha256, groups) && total == |Grams(Streams(files[i], false))|
    requires Eligible(files[i]) ==> signatures[i] == SignatureOf(sha256, files[i])
    requires forall k :: 0 <= k < |files| ==> Represents(rawCounts[k], GroupOf(files[k]).Contribution(false))
    requires forall k :: 0 <= k < |files| ==> Represents(normCounts[k], GroupOf(files[k]).Contribution(true))
    requires Lists(order, Groups(files, sha256)) && |groups| == |Groups(files, sha256)|
    requires Represents(rawCorpus, Corpus(order, false)) && Represents(normCorpus, Corpus(order, true))
    ensures row == MetricsOf(Groups(files, sha256), eligible, log2, files[i])
  {
    hide Represents, PeerAgainst, Groups, HoldsOut, Corpus, Lists, GroupOf, GroupsUpTo;
    if total < MIN_METRIC_TOKENS {
      return None;
    }
    var cohort := if |groups| > 0 then |groups| - 1 else 0;
    if total < MIN_PEER_TOKENS {
      return Some(Metrics(total, |groups|, 0, None));
    }
    var excluded := eligible - 1 - cohort;
    if |groups| < MIN_METRIC_COHORT {
      return Some(Metrics(total, cohort, excluded, None));
    }
    ghost var own := OwnGroup(files, i, sha256, groups, signatures[i]);
    var representative := groups[signatures[i]];
    GroupsAreOnePerStream(files, sha256);
    GroupIsHeldOut(order, Groups(files, sha256), own, false, rawCorpus, rawCounts[representative]);
    GroupIsHeldOut(order, Groups(files, sha256), own, true, normCorpus, normCounts[representative]);
    var peer := MeasurePeer(files[i], rawCorpus, normCorpus, rawCounts[representative], normCounts[representative], log2,
                            Groups(files, sha256));
    row := Some(Metrics(total, cohort, excluded, Some(peer)));
  }

  /** The representative an eligible submission finds under its signature is its own group. */
  lemma OwnGroup(files: seq<Source>, i: nat, sha256: seq<byte> -> nat, groups: map<nat, nat>, signature: nat) returns (own: Group)
    requires CollisionFree(sha256) && i < |files| && Eligible(files[i]) && GroupsUpTo(files, |files|, sha256, groups)
    requires signature == SignatureOf(sha256, files[i])
    ensures signature in groups && groups[signature] < |files|
    ensures own == GroupOf(files[groups[signature]]) && own in Groups(files, sha256) && own.norm == GroupOf(files[i]).norm
  {
    own := GroupOf(files[groups[signature]]);
    EntriesAreGroups(files, sha256, groups, own);
    DigestIdentifies(sha256, own.norm, GroupOf(files[i]).norm);
  }
}
