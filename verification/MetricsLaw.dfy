/** What the numbers of a cohort's token metrics are, stated from the submissions alone. */
module MetricsLaw {
  import opened Options
  import opened TokenCounts
  import opened PeerModel
  import opened Surprisals
  import opened Signature
  import opened PeerGroups
  import opened TokenMetrics

  function TokenTotal(v: Source): nat {
    if v == [] then 0 else TokenTotal(v[..|v| - 1]) + |v[|v| - 1]|
  }

  /** The different normalised streams of the submissions with at least 128 tokens. */
  function PeerStreams(files: seq<Source>): set<seq<seq<Word>>> {
    set u | u in files && TokenTotal(u) >= 128 :: Streams(u, true)
  }

  function PeerPlaces(files: seq<Source>): set<nat> {
    set i: nat | i < |files| && TokenTotal(files[i]) >= 128
  }

  /** One submission for every other normalised stream, the one whose raw stream has the least hash. */
  ghost predicate OtherPeers(peers: seq<Source>, files: seq<Source>, sha256: seq<byte> -> nat, v: Source) {
    && (forall k :: 0 <= k < |peers| ==> peers[k] in files && TokenTotal(peers[k]) >= 128)
    && (forall k, u :: 0 <= k < |peers| && u in files && TokenTotal(u) >= 128 && Streams(u, true) == Streams(peers[k], true)
          ==> sha256(Encode(Streams(peers[k], false))) <= sha256(Encode(Streams(u, false))))
    && (forall j, k :: 0 <= j < k < |peers| ==> Streams(peers[j], true) != Streams(peers[k], true))
    && (forall norm :: (norm in PeerStreams(files) && norm != Streams(v, true)) <==> exists k :: 0 <= k < |peers| && Streams(peers[k], true) == norm)
  }

  /** Everything these submissions say, one after the other. */
  function AllGrams(peers: seq<Source>, normalized: bool): seq<Gram> {
    if peers == [] then [] else AllGrams(peers[..|peers| - 1], normalized) + Grams(Streams(peers[|peers| - 1], normalized))
  }

  /** A word no peer uses counts as unknown. */
  function Known(rest: seq<Gram>, w: Word): Word {
    if exists k :: 0 <= k < |rest| && rest[k].1 == w then w else UNKNOWN
  }

  /** One number per word: minus the logarithm of its probability after the word before it. */
  ghost predicate AreSurprisals(series: seq<seq<real>>, rest: seq<Gram>, log2: real -> real, streams: seq<seq<Word>>) {
    && |series| == |streams|
    && (forall i :: 0 <= i < |streams| ==> |series[i]| == |streams[i]|)
    && (forall i, k :: 0 <= i < |streams| && 0 <= k < |streams[i]| ==>
          series[i][k] == -log2(Model(rest, if k == 0 then START else Known(rest, streams[i][k - 1]), Known(rest, streams[i][k]))))
  }

  /** The places of words that no peer uses. */
  function UnknownPlaces(rest: seq<Gram>, streams: seq<seq<Word>>): set<(nat, nat)> {
    set i: nat, k: nat | i < |streams| && k < |streams[i]| && streams[i][k] !in Seen(rest) :: (i, k)
  }

  /** The mean and the squared deviation of all values, as two passes compute them. */
  ghost predicate Summarizes(series: seq<seq<real>>, mean: real, deviation: real) {
    mean * |Flat(series)| as real == Total(Flat(series)) && deviation == SquaredDeviation(Flat(series), mean)
  }

  /** The raw numbers are about the raw stream, the normalised ones about the normalised stream. */
  ghost predicate PeerFits(peer: Peer, peers: seq<Source>, log2: real -> real, v: Source) {
    && (exists raw :: AreSurprisals(raw, AllGrams(peers, false), log2, Streams(v, false)) && Summarizes(raw, peer.crossEntropy, peer.deviation))
    && AreSurprisals(peer.series, AllGrams(peers, true), log2, Streams(v, true))
    && Summarizes(peer.series, peer.normalizedCrossEntropy, peer.normalizedDeviation)
    && peer.unknown == |UnknownPlaces(AllGrams(peers, false), Streams(v, false))|
  }

  /** No row below 50 tokens, peer numbers from 128 tokens and 5 streams on; the cohort is the other streams, and excluded are the copies. */
  ghost predicate RowFits(row: Option<Metrics>, files: seq<Source>, sha256: seq<byte> -> nat, log2: real -> real, v: Source) {
    var total, streams := TokenTotal(v), |PeerStreams(files)|;
    && (row.Some? <==> total >= 50)
    && (row.Some? ==>
          && row.value.tokenCount == total
          && (total < 128 ==> row.value.cohortSize == streams && row.value.excludedPeers == 0)
          && (total >= 128 ==> row.value.cohortSize == streams - 1 && row.value.excludedPeers == |PeerPlaces(files)| - streams)
          && (row.value.peer.Some? <==> total >= 128 && streams >= 5)
          && (row.value.peer.Some? ==> forall peers :: OtherPeers(peers, files, sha256, v) ==> PeerFits(row.value.peer.value, peers, log2, v)))
  }

  // ---------------------------------------------------------------- counting

  lemma {:induction false} GramsAreTokens(v: Source, normalized: bool)
    ensures |Grams(Streams(v, normalized))| == TokenTotal(v)
  {
    if v != [] {
      var n := |v| - 1;
      GramsAreTokens(v[..n], normalized);
      assert Streams(v, normalized)[..n] == Streams(v[..n], normalized);
    }
  }

  lemma EligibleIsLong(v: Source)
    ensures Eligible(v) <==> TokenTotal(v) >= 128
  {
    GramsAreTokens(v, false);
  }

  lemma {:induction false} EligibleAreCounted(files: seq<Source>)
    ensures CountEligible(files) == |PeerPlaces(files)|
  {
    if files != [] {
      var n := |files| - 1;
      EligibleAreCounted(files[..n]);
      EligibleIsLong(files[n]);
      hide TokenTotal, Eligible;
      if TokenTotal(files[n]) >= 128 {
        assert PeerPlaces(files) == PeerPlaces(files[..n]) + {n};
      } else {
        assert PeerPlaces(files) == PeerPlaces(files[..n]);
      }
    }
  }

  lemma GroupsAreStreams(files: seq<Source>, sha256: seq<byte> -> nat)
    requires CollisionFree(sha256)
    ensures NormsOf(Groups(files, sha256)) == PeerStreams(files) && |Groups(files, sha256)| == |PeerStreams(files)|
  {
    var groups := Groups(files, sha256);
    NormsAreEligibleStreams(files, sha256);
    forall norm ensures norm in NormsOf(groups) <==> norm in PeerStreams(files) {
      LongStreams(files, norm);
    }
    assert NormsOf(groups) == PeerStreams(files);
    hide *;
    GroupsAreOnePerStream(files, sha256);
    NormsAreListed(Listed(groups), groups);
    ListsAsMultiset(Listed(groups), groups);
    ListsAsMultiset(NormsInOrder(Listed(groups)), NormsOf(groups));
    SameLength(Listed(groups));
  }

  lemma SameLength(order: seq<Group>)
    ensures |NormsInOrder(order)| == |order|
  {
  }

  lemma LongStreams(files: seq<Source>, norm: seq<seq<Word>>)
    ensures norm in PeerStreams(files) <==> exists v :: v in files && Eligible(v) && GroupOf(v).norm == norm
  {
    hide TokenTotal, Eligible;
    forall u: Source ensures Eligible(u) <==> TokenTotal(u) >= 128 {
      EligibleIsLong(u);
    }
    if norm in PeerStreams(files) {
      var u :| u in files && TokenTotal(u) >= 128 && Streams(u, true) == norm;
      assert GroupOf(u).norm == norm;
    }
  }

  // ---------------------------------------------------------------- the peers

  function GroupsOf(peers: seq<Source>): (r: seq<Group>)
    ensures |r| == |peers|
  {
    seq(|peers|, k requires 0 <= k < |peers| => GroupOf(peers[k]))
  }

  lemma {:induction false} CorpusIsAllGrams(peers: seq<Source>, normalized: bool)
    ensures Corpus(GroupsOf(peers), normalized) == AllGrams(peers, normalized)
  {
    if peers != [] {
      var n := |peers| - 1;
      CorpusIsAllGrams(peers[..n], normalized);
      assert GroupsOf(peers)[..n] == GroupsOf(peers[..n]);
    }
  }

  lemma PeerIsRepresentative(peers: seq<Source>, files: seq<Source>, sha256: seq<byte> -> nat, v: Source, k: nat)
    requires OtherPeers(peers, files, sha256, v) && k < |peers|
    ensures GroupOf(peers[k]) in Groups(files, sha256) && GroupOf(peers[k]).norm != Streams(v, true)
  {
    EligibleIsLong(peers[k]);
    hide TokenTotal, Encode, Eligible;
    forall u | u in files && Eligible(u) && GroupOf(u).norm == GroupOf(peers[k]).norm
      ensures Digest(sha256, GroupOf(peers[k]).raw) <= Digest(sha256, GroupOf(u).raw)
    {
      EligibleIsLong(u);
      assert Streams(u, true) == Streams(peers[k], true);
    }
    assert IsRepresentative(files, sha256, peers[k]);
    assert Streams(peers[k], true) in PeerStreams(files) && Streams(peers[k], true) != Streams(v, true);
  }

  lemma OtherPeersAreListed(peers: seq<Source>, files: seq<Source>, sha256: seq<byte> -> nat, v: Source)
    requires CollisionFree(sha256) && OtherPeers(peers, files, sha256, v)
    ensures Lists(GroupsOf(peers), Others(Groups(files, sha256), Streams(v, true)))
  {
    GroupsAreOnePerStream(files, sha256);
    GroupsAreStreams(files, sha256);
    hide CollisionFree, Groups, PeerStreams, TokenTotal, Encode;
    var order, groups := GroupsOf(peers), Groups(files, sha256);
    forall g: Group ensures g in order <==> g in Others(groups, Streams(v, true)) {
      if g in order {
        var k :| 0 <= k < |order| && order[k] == g;
        PeerIsRepresentative(peers, files, sha256, v, k);
      }
      if g in Others(groups, Streams(v, true)) {
        assert g.norm in NormsOf(groups);
        var k :| 0 <= k < |peers| && Streams(peers[k], true) == g.norm;
        PeerIsRepresentative(peers, files, sha256, v, k);
        assert order[k].norm == g.norm && order[k] == g;
      }
    }
  }

  lemma PeersSayTheOtherCorpus(peers: seq<Source>, files: seq<Source>, sha256: seq<byte> -> nat, v: Source, normalized: bool)
    requires CollisionFree(sha256) && OtherPeers(peers, files, sha256, v)
    ensures multiset(AllGrams(peers, normalized)) == multiset(OtherCorpus(Groups(files, sha256), Streams(v, true), normalized))
  {
    hide CollisionFree, OtherPeers, Groups, Others, Lists, GroupsOf, Corpus, AllGrams;
    var others := Others(Groups(files, sha256), Streams(v, true));
    OtherPeersAreListed(peers, files, sha256, v);
    CorpusIsAllGrams(peers, normalized);
    ListsAsMultiset(GroupsOf(peers), others);
    ListsAsMultiset(Listed(others), others);
    CorpusIgnoresOrder(GroupsOf(peers), Listed(others), normalized);
  }

  lemma LeastOfItsStream(files: seq<Source>, sha256: seq<byte> -> nat, w: Source, u: Source)
    requires IsRepresentative(files, sha256, w) && u in files && TokenTotal(u) >= 128 && Streams(u, true) == Streams(w, true)
    ensures sha256(Encode(Streams(w, false))) <= sha256(Encode(Streams(u, false)))
  {
    EligibleIsLong(u);
    hide Eligible, TokenTotal, Encode;
    assert GroupOf(u).norm == GroupOf(w).norm;
  }

  lemma ListedDiffer(files: seq<Source>, sha256: seq<byte> -> nat, others: set<Group>, peers: seq<Source>, j: nat, k: nat)
    requires CollisionFree(sha256) && others <= Groups(files, sha256) && |peers| == |Listed(others)| && j < k < |peers|
    requires forall k :: 0 <= k < |peers| ==> GroupOf(peers[k]) == Listed(others)[k]
    ensures Streams(peers[j], true) != Streams(peers[k], true)
  {
    GroupsAreOnePerStream(files, sha256);
    hide CollisionFree, Groups, Listed;
    assert Listed(others)[j] in Listed(others) && Listed(others)[k] in Listed(others);
  }

  /** There are such peers for every submission of every cohort. */
  lemma OtherPeersExist(files: seq<Source>, sha256: seq<byte> -> nat, v: Source)
    requires CollisionFree(sha256)
    ensures exists peers :: OtherPeers(peers, files, sha256, v)
  {
    hide CollisionFree, TokenTotal, Encode, PeerStreams, Listed, Groups, IsRepresentative, OnePerStream;
    var others := Others(Groups(files, sha256), Streams(v, true));
    var peers := Representatives(files, sha256, Listed(others));
    GroupsAreStreams(files, sha256);
    forall k | 0 <= k < |peers| ensures peers[k] in files && TokenTotal(peers[k]) >= 128 {
      RepresentativeIsLong(files, sha256, peers[k]);
    }
    forall k, u | 0 <= k < |peers| && u in files && TokenTotal(u) >= 128 && Streams(u, true) == Streams(peers[k], true)
      ensures sha256(Encode(Streams(peers[k], false))) <= sha256(Encode(Streams(u, false)))
    {
      LeastOfItsStream(files, sha256, peers[k], u);
    }
    forall j, k | 0 <= j < k < |peers| ensures Streams(peers[j], true) != Streams(peers[k], true) {
      ListedDiffer(files, sha256, others, peers, j, k);
    }
    forall norm ensures (norm in PeerStreams(files) && norm != Streams(v, true)) <==> exists k :: 0 <= k < |peers| && Streams(peers[k], true) == norm {
      OneOfTheOthers(files, sha256, v, peers, norm);
    }
    assert OtherPeers(peers, files, sha256, v);
  }

  lemma RepresentativeIsLong(files: seq<Source>, sha256: seq<byte> -> nat, w: Source)
    requires IsRepresentative(files, sha256, w)
    ensures w in files && TokenTotal(w) >= 128
  {
    EligibleIsLong(w);
  }

  lemma OneOfTheOthers(files: seq<Source>, sha256: seq<byte> -> nat, v: Source, peers: seq<Source>, norm: seq<seq<Word>>)
    requires NormsOf(Groups(files, sha256)) == PeerStreams(files)
    requires |peers| == |Listed(Others(Groups(files, sha256), Streams(v, true)))|
    requires forall k :: 0 <= k < |peers| ==> GroupOf(peers[k]) == Listed(Others(Groups(files, sha256), Streams(v, true)))[k]
    ensures (norm in PeerStreams(files) && norm != Streams(v, true)) <==> exists k :: 0 <= k < |peers| && Streams(peers[k], true) == norm
  {
    hide Groups, Listed, PeerStreams;
    var others := Others(Groups(files, sha256), Streams(v, true));
    if norm in PeerStreams(files) && norm != Streams(v, true) {
      var g :| g in Groups(files, sha256) && g.norm == norm;
      assert g in Listed(others);
      var k :| 0 <= k < |peers| && Listed(others)[k] == g;
      assert Streams(peers[k], true) == norm;
    }
    if k :| 0 <= k < |peers| && Streams(peers[k], true) == norm {
      assert Listed(others)[k] in others;
      assert norm in NormsOf(Groups(files, sha256));
    }
  }

  ghost function Representatives(files: seq<Source>, sha256: seq<byte> -> nat, order: seq<Group>): (r: seq<Source>)
    requires forall g :: g in order ==> g in Groups(files, sha256)
    ensures |r| == |order|
    ensures forall k :: 0 <= k < |r| ==> IsRepresentative(files, sha256, r[k]) && GroupOf(r[k]) == order[k]
  {
    if order == [] then []
    else
      var g := order[|order| - 1];
      assert g in order && g in Groups(files, sha256);
      var v :| v in files && IsRepresentative(files, sha256, v) && GroupOf(v) == g;
      Representatives(files, sha256, order[..|order| - 1]) + [v]
  }

  // ---------------------------------------------------------------- the numbers

  lemma KnownIsSeen(rest: seq<Gram>, w: Word)
    ensures Known(rest, w) == if w in Seen(rest) then w else UNKNOWN
  {
  }

  lemma SeriesAreSurprisals(rest: seq<Gram>, log2: real -> real, streams: seq<seq<Word>>)
    ensures AreSurprisals(SeriesOf(rest, log2, streams), rest, log2, streams)
  {
    hide Model, Known, Seen;
    forall w: Word ensures Known(rest, w) == if w in Seen(rest) then w else UNKNOWN {
      KnownIsSeen(rest, w);
    }
    forall i, k | 0 <= i < |streams| && 0 <= k < |streams[i]|
      ensures SeriesOf(rest, log2, streams)[i][k] ==
              -log2(Model(rest, if k == 0 then START else Known(rest, streams[i][k - 1]), Known(rest, streams[i][k])))
    {
    }
  }

  function PlacesIn(rest: seq<Gram>, words: seq<Word>, i: nat): set<(nat, nat)> {
    set k: nat | k < |words| && words[k] !in Seen(rest) :: (i, k)
  }

  lemma {:induction false} UnknownInIsCount(rest: seq<Gram>, words: seq<Word>, i: nat)
    ensures UnknownIn(rest, words) == |PlacesIn(rest, words, i)|
  {
    hide Seen;
    if words == [] {
      assert PlacesIn(rest, words, i) == {};
    } else {
      var n := |words| - 1;
      UnknownInIsCount(rest, words[..n], i);
      if words[n] in Seen(rest) {
        assert PlacesIn(rest, words, i) == PlacesIn(rest, words[..n], i);
      } else {
        assert PlacesIn(rest, words, i) == PlacesIn(rest, words[..n], i) + {(i, n)};
      }
    }
  }

  lemma {:induction false} UnknownIsCount(rest: seq<Gram>, streams: seq<seq<Word>>)
    ensures UnknownCount(rest, streams) == |UnknownPlaces(rest, streams)|
  {
    hide Seen, UnknownIn;
    if streams == [] {
      assert UnknownPlaces(rest, streams) == {};
    } else {
      var n := |streams| - 1;
      UnknownIsCount(rest, streams[..n]);
      UnknownInIsCount(rest, streams[n], n);
      var before, here := UnknownPlaces(rest, streams[..n]), PlacesIn(rest, streams[n], n);
      assert UnknownPlaces(rest, streams) == before + here;
      assert before !! here;
    }
  }

  lemma {:induction false} UnknownIgnoresOrder(rest: seq<Gram>, other: seq<Gram>, streams: seq<seq<Word>>)
    requires multiset(rest) == multiset(other)
    ensures UnknownPlaces(rest, streams) == UnknownPlaces(other, streams)
  {
    ModelIgnoresOrder(rest, other, START, START);
  }

  lemma MeanTimesLength(values: seq<real>)
    ensures Mean(values) * |values| as real == Total(values)
  {
    if values != [] {
      var n := |values| as real;
      assert Total(values) / n * n == Total(values);
    }
  }

  /** What the definition computes fits. */
  lemma PeerOfFits(peers: seq<Source>, files: seq<Source>, sha256: seq<byte> -> nat, log2: real -> real, v: Source)
    requires CollisionFree(sha256) && OtherPeers(peers, files, sha256, v)
    ensures PeerFits(PeerAgainst(Groups(files, sha256), log2, v), peers, log2, v)
  {
    hide CollisionFree, OtherPeers, OtherCorpus, Groups, AllGrams, SeriesOf, UnknownCount, Flat, Mean, SquaredDeviation, Total, UnknownPlaces, AreSurprisals;
    var groups := Groups(files, sha256);
    var rawRest, normRest := OtherCorpus(groups, Streams(v, true), false), OtherCorpus(groups, Streams(v, true), true);
    var raw, norm := AllGrams(peers, false), AllGrams(peers, true);
    PeersSayTheOtherCorpus(peers, files, sha256, v, false);
    PeersSayTheOtherCorpus(peers, files, sha256, v, true);
    SeriesIgnoresOrder(rawRest, raw, log2, Streams(v, false));
    SeriesIgnoresOrder(normRest, norm, log2, Streams(v, true));
    SeriesAreSurprisals(raw, log2, Streams(v, false));
    SeriesAreSurprisals(norm, log2, Streams(v, true));
    UnknownIsCount(rawRest, Streams(v, false));
    UnknownIgnoresOrder(rawRest, raw, Streams(v, false));
    MeanTimesLength(Flat(SeriesOf(raw, log2, Streams(v, false))));
    MeanTimesLength(Flat(SeriesOf(norm, log2, Streams(v, true))));
    assert GroupOf(v).norm == Streams(v, true);
  }

  /** Every row of the cohort's metrics is what its submission and its peers make it. */
  lemma MetricsFit(files: seq<Source>, sha256: seq<byte> -> nat, log2: real -> real, v: Source)
    requires CollisionFree(sha256) && v in files
    ensures RowFits(MetricsOf(Groups(files, sha256), CountEligible(files), log2, v), files, sha256, log2, v)
  {
    GramsAreTokens(v, false);
    EligibleAreCounted(files);
    GroupsAreStreams(files, sha256);
    hide CollisionFree, TokenTotal, Groups, CountEligible, PeerAgainst, PeerFits, OtherPeers, PeerPlaces;
    if TokenTotal(v) >= 128 {
      OwnStreamCounts(files, v);
    }
    forall peers | OtherPeers(peers, files, sha256, v) ensures PeerFits(PeerAgainst(Groups(files, sha256), log2, v), peers, log2, v) {
      PeerOfFits(peers, files, sha256, log2, v);
    }
  }

  lemma OwnStreamCounts(files: seq<Source>, v: Source)
    requires v in files && TokenTotal(v) >= 128
    ensures |PeerStreams(files)| > 0
  {
    assert Streams(v, true) in PeerStreams(files);
  }
}
