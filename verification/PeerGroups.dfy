/** Groups of equivalent submissions: one key per normalised stream, one representative per key. */
module PeerGroups {
  import opened TokenCounts
  import opened PeerModel
  import opened Signature

  const MIN_PEER_TOKENS: nat := 128

  /** What a group contributes to the corpora. */
  datatype Group = Group(norm: seq<seq<Word>>, raw: seq<seq<Word>>) {
    function Contribution(normalized: bool): seq<Gram> {
      Grams(if normalized then norm else raw)
    }
  }

  function GroupOf(v: Source): Group {
    Group(Streams(v, true), Streams(v, false))
  }

  predicate Eligible(v: Source) {
    |Grams(Streams(v, false))| >= MIN_PEER_TOKENS
  }

  function Digest(sha256: seq<byte> -> nat, streams: seq<seq<Word>>): nat {
    sha256(Encode(streams))
  }

  ghost predicate CollisionFree(sha256: seq<byte> -> nat) {
    forall s: seq<byte>, t: seq<byte> :: sha256(s) == sha256(t) ==> s == t
  }

  lemma DigestIdentifies(sha256: seq<byte> -> nat, streams: seq<seq<Word>>, others: seq<seq<Word>>)
    requires CollisionFree(sha256)
    ensures Digest(sha256, streams) == Digest(sha256, others) <==> streams == others
  {
    if Digest(sha256, streams) == Digest(sha256, others) {
      EncodeIsInjective(streams, others);
    }
  }

  /** v has the least raw digest among the eligible submissions of its group. */
  ghost predicate IsRepresentative(files: seq<Source>, sha256: seq<byte> -> nat, v: Source) {
    && v in files && Eligible(v)
    && forall u :: u in files && Eligible(u) && GroupOf(u).norm == GroupOf(v).norm
                   ==> Digest(sha256, GroupOf(v).raw) <= Digest(sha256, GroupOf(u).raw)
  }

  /** The groups of a cohort, with no mention of the order of the submissions. */
  ghost function Groups(files: seq<Source>, sha256: seq<byte> -> nat): set<Group> {
    set v | v in files && IsRepresentative(files, sha256, v) :: GroupOf(v)
  }

  function CountEligible(files: seq<Source>): nat {
    if files == [] then 0
    else CountEligible(files[..|files| - 1]) + if Eligible(files[|files| - 1]) then 1 else 0
  }

  /** The cohort's groups and its number of eligible submissions do not depend on the order of the submissions. */
  lemma GroupsIgnoreOrder(files: seq<Source>, others: seq<Source>, sha256: seq<byte> -> nat)
    requires multiset(files) == multiset(others)
    ensures Groups(files, sha256) == Groups(others, sha256)
    ensures CountEligible(files) == CountEligible(others)
  {
    SameMembers(files, others);
    EligibleIgnoresOrder(files, others);
    hide Eligible, GroupOf, Digest;
    forall v: Source ensures IsRepresentative(files, sha256, v) <==> IsRepresentative(others, sha256, v) {
    }
  }

  lemma SameMembers(files: seq<Source>, others: seq<Source>)
    requires multiset(files) == multiset(others)
    ensures forall v :: v in files <==> v in others
  {
    assert forall v :: v in files <==> v in multiset(files);
    assert forall v :: v in others <==> v in multiset(others);
  }

  /** The list without its k-th element. */
  function Without<T>(s: seq<T>, k: nat): (r: seq<T>)
    requires k < |s|
    ensures |r| == |s| - 1
  {
    s[..k] + s[k + 1..]
  }

  lemma {:induction false} CountWithout(files: seq<Source>, k: nat)
    requires k < |files|
    ensures CountEligible(files) == CountEligible(Without(files, k)) + if Eligible(files[k]) then 1 else 0
  {
    hide Eligible;
    var n := |files| - 1;
    var rest := Without(files, k);
    if k == n {
      assert rest == files[..n];
    } else {
      CountWithout(files[..n], k);
      assert rest[..|rest| - 1] == Without(files[..n], k);
      assert rest[|rest| - 1] == files[n];
    }
  }

  lemma {:induction false} EligibleIgnoresOrder(files: seq<Source>, others: seq<Source>)
    requires multiset(files) == multiset(others)
    ensures CountEligible(files) == CountEligible(others)
    decreases |files|
  {
    if files == [] {
      assert |multiset(others)| == 0;
    } else {
      hide *;
      var k := PermutationStep(files, others);
      CountWithout(files, 0);
      CountWithout(others, k);
      EligibleIgnoresOrder(Without(files, 0), Without(others, k));
    }
  }

  lemma TakenOut<T>(s: seq<T>, k: nat)
    requires k < |s|
    ensures multiset(s) == multiset(Without(s, k)) + multiset{s[k]}
  {
    assert s == s[..k] + [s[k]] + s[k + 1..];
  }

  // ---------------------------------------------------------------- corpora from a list of groups

  /** The corpus that adding the groups one after the other builds. */
  function Corpus(order: seq<Group>, normalized: bool): seq<Gram> {
    if order == [] then [] else Corpus(order[..|order| - 1], normalized) + order[|order| - 1].Contribution(normalized)
  }

  lemma ConcatWithout(all: seq<Gram>, rest: seq<Gram>, own: seq<Gram>, last: seq<Gram>)
    requires multiset(all) == multiset(own) + multiset(rest)
    ensures multiset(all + last) == multiset(own) + multiset(rest + last)
  {
  }

  lemma {:induction false} CorpusWithout(order: seq<Group>, k: nat, normalized: bool)
    requires k < |order|
    ensures multiset(Corpus(order, normalized))
            == multiset(order[k].Contribution(normalized)) + multiset(Corpus(Without(order, k), normalized))
  {
    var n := |order| - 1;
    if k == n {
      assert Without(order, k) == order[..n];
    } else {
      CorpusWithout(order[..n], k, normalized);
      LastOfWithout(order, k);
      hide Group.Contribution, Without;
      ConcatWithout(Corpus(order[..n], normalized), Corpus(Without(order[..n], k), normalized),
                    order[k].Contribution(normalized), order[n].Contribution(normalized));
    }
  }

  lemma LastOfWithout<T>(s: seq<T>, k: nat)
    requires k < |s| - 1
    ensures Without(s, k)[..|s| - 2] == Without(s[..|s| - 1], k) && Without(s, k)[|s| - 2] == s[|s| - 1]
  {
  }

  /** A permutation in terms of its first element. */
  lemma PermutationStep<T>(s: seq<T>, t: seq<T>) returns (k: nat)
    requires s != [] && multiset(s) == multiset(t)
    ensures k < |t| && t[k] == s[0] && multiset(Without(s, 0)) == multiset(Without(t, k))
  {
    assert s[0] in multiset(t);
    k :| 0 <= k < |t| && t[k] == s[0];
    TakenOut(s, 0);
    TakenOut(t, k);
    SameRest(multiset(Without(s, 0)), multiset(Without(t, k)), s[0]);
  }

  /** Map iteration order does not matter: the corpus is the same multiset of grams in any order of the groups. */
  lemma {:induction false} CorpusIgnoresOrder(order: seq<Group>, other: seq<Group>, normalized: bool)
    requires multiset(order) == multiset(other)
    ensures multiset(Corpus(order, normalized)) == multiset(Corpus(other, normalized))
    decreases |order|
  {
    if order == [] {
      assert |multiset(other)| == 0;
    } else {
      hide *;
      var k := PermutationStep(order, other);
      CorpusWithout(order, 0, normalized);
      CorpusWithout(other, k, normalized);
      CorpusIgnoresOrder(Without(order, 0), Without(other, k), normalized);
    }
  }

  ghost predicate Distinct<T(!new)>(s: seq<T>) {
    forall i, j :: 0 <= i < j < |s| ==> s[i] != s[j]
  }

  /** The list holds every element of the set once. */
  ghost predicate Lists<T(!new)>(order: seq<T>, s: set<T>) {
    Distinct(order) && forall g: T :: g in order <==> g in s
  }

  lemma {:induction false} ListsAsMultiset<T(!new)>(order: seq<T>, s: set<T>)
    requires Lists(order, s)
    ensures multiset(order) == multiset(s) && |order| == |s|
  {
    if order == [] {
      assert s == {};
    } else {
      var n := |order| - 1;
      var g := order[n];
      assert g in s && order == order[..n] + [g];
      forall x: T ensures x in order[..n] <==> x in s - {g} {
        assert x in order <==> x in s;
        if x in order && x != g {
          var k :| 0 <= k < |order| && order[k] == x;
          assert order[..n][k] == x;
        }
      }
      ListsAsMultiset(order[..n], s - {g});
      assert multiset(s) == multiset(s - {g}) + multiset{g};
    }
  }

  ghost function Listed<T(!new)>(s: set<T>): (order: seq<T>)
    ensures Lists(order, s)
    decreases |s|
  {
    if s == {} then []
    else
      var g :| g in s;
      var before := Listed(s - {g});
      assert forall x: T :: x in before + [g] <==> x in before || x == g;
      before + [g]
  }

  /** The groups that are not the target's own. */
  ghost function Others(groups: set<Group>, norm: seq<seq<Word>>): set<Group> {
    set g | g in groups && g.norm != norm
  }

  /** The corpus of the other groups, counted from nothing in some order. */
  ghost function OtherCorpus(groups: set<Group>, norm: seq<seq<Word>>, normalized: bool): seq<Gram> {
    Corpus(Listed(Others(groups, norm)), normalized)
  }

  /** No two groups share a normalised stream. */
  ghost predicate OnePerStream(groups: set<Group>) {
    forall g, h :: g in groups && h in groups && g.norm == h.norm ==> g == h
  }

  lemma GroupsAreOnePerStream(files: seq<Source>, sha256: seq<byte> -> nat)
    requires CollisionFree(sha256)
    ensures OnePerStream(Groups(files, sha256))
  {
    forall g, h | g in Groups(files, sha256) && h in Groups(files, sha256) && g.norm == h.norm ensures g == h {
      var v :| v in files && IsRepresentative(files, sha256, v) && GroupOf(v) == g;
      var u :| u in files && IsRepresentative(files, sha256, u) && GroupOf(u) == h;
      assert Digest(sha256, g.raw) == Digest(sha256, h.raw);
      DigestIdentifies(sha256, g.raw, h.raw);
    }
  }

  lemma RemoveListed<T(!new)>(order: seq<T>, s: set<T>, k: nat, g: T)
    requires Lists(order, s) && k < |order| && order[k] == g
    ensures Lists(Without(order, k), s - {g})
  {
    var rest := Without(order, k);
    forall x: T ensures x in rest <==> x in s - {g} {
      assert x in order <==> x in s;
      if x in order && x != g {
        var i :| 0 <= i < |order| && order[i] == x;
        assert rest[if i < k then i else i - 1] == x;
      }
    }
  }

  /** Subtracting the target's own group from the shared corpus holds out exactly the other groups' corpus. */
  lemma GroupIsHeldOut(order: seq<Group>, groups: set<Group>, own: Group, normalized: bool, corpus: Counts, counts: Counts)
    requires Lists(order, groups) && OnePerStream(groups) && own in groups
    requires Represents(corpus, Corpus(order, normalized)) && Represents(counts, own.Contribution(normalized))
    ensures HoldsOut(corpus, counts, OtherCorpus(groups, own.norm, normalized))
  {
    var k :| 0 <= k < |order| && order[k] == own;
    var rest := Without(order, k);
    RemoveListed(order, groups, k, own);
    assert Others(groups, own.norm) == groups - {own};
    var others := Others(groups, own.norm);
    ListsAsMultiset(rest, others);
    ListsAsMultiset(Listed(others), others);
    CorpusIgnoresOrder(rest, Listed(others), normalized);
    CorpusWithout(order, k, normalized);
  }

  // ---------------------------------------------------------------- structural duplicates

  ghost function NormsOf(groups: set<Group>): set<seq<seq<Word>>> {
    set g | g in groups :: g.norm
  }

  lemma {:induction false} SameShapeSameLength(v: Source)
    ensures |Grams(Streams(v, true))| == |Grams(Streams(v, false))|
  {
    if v != [] {
      var n := |v| - 1;
      SameShapeSameLength(v[..n]);
      assert Streams(v, true)[..n] == Streams(v[..n], true);
      assert Streams(v, false)[..n] == Streams(v[..n], false);
    }
  }

  /** Every eligible submission's normalised stream has a group. */
  lemma {:induction false} EveryStreamHasAGroup(files: seq<Source>, sha256: seq<byte> -> nat, v: Source)
    requires v in files && Eligible(v)
    ensures GroupOf(v).norm in NormsOf(Groups(files, sha256))
    decreases Digest(sha256, GroupOf(v).raw)
  {
    if IsRepresentative(files, sha256, v) {
      assert GroupOf(v) in Groups(files, sha256);
    } else {
      var u :| u in files && Eligible(u) && GroupOf(u).norm == GroupOf(v).norm
               && Digest(sha256, GroupOf(u).raw) < Digest(sha256, GroupOf(v).raw);
      EveryStreamHasAGroup(files, sha256, u);
    }
  }

  lemma NormsAreEligibleStreams(files: seq<Source>, sha256: seq<byte> -> nat)
    ensures forall norm :: norm in NormsOf(Groups(files, sha256)) <==> exists v :: v in files && Eligible(v) && GroupOf(v).norm == norm
  {
    forall v | v in files && Eligible(v) ensures GroupOf(v).norm in NormsOf(Groups(files, sha256)) {
      EveryStreamHasAGroup(files, sha256, v);
    }
  }

  /** A further submission with the structure of one already there leaves the set of normalised streams as it was. */
  lemma DuplicateAddsNoStream(files: seq<Source>, sha256: seq<byte> -> nat, v: Source, copy: Source)
    requires v in files && Eligible(v) && GroupOf(copy).norm == GroupOf(v).norm
    ensures NormsOf(Groups(files + [copy], sha256)) == NormsOf(Groups(files, sha256))
  {
    NormsAreEligibleStreams(files, sha256);
    NormsAreEligibleStreams(files + [copy], sha256);
    SameShapeSameLength(v);
    SameShapeSameLength(copy);
    var before, after := NormsOf(Groups(files, sha256)), NormsOf(Groups(files + [copy], sha256));
    forall norm ensures norm in after <==> norm in before {
      if norm in after {
        var u :| u in files + [copy] && Eligible(u) && GroupOf(u).norm == norm;
        assert u in files || u == copy;
      }
      if norm in before {
        var u :| u in files && Eligible(u) && GroupOf(u).norm == norm;
        assert u in files + [copy];
      }
    }
  }

  function NormGrams(norms: seq<seq<seq<Word>>>): seq<Gram> {
    if norms == [] then [] else NormGrams(norms[..|norms| - 1]) + Grams(norms[|norms| - 1])
  }

  function NormsInOrder(order: seq<Group>): seq<seq<seq<Word>>> {
    seq(|order|, k requires 0 <= k < |order| => order[k].norm)
  }

  lemma {:induction false} CorpusByNorms(order: seq<Group>)
    ensures Corpus(order, true) == NormGrams(NormsInOrder(order))
  {
    if order != [] {
      CorpusByNorms(order[..|order| - 1]);
      assert NormsInOrder(order)[..|order| - 1] == NormsInOrder(order[..|order| - 1]);
    }
  }

  /** A corpus with no regard to raw spellings, as groups that differ only in them. */
  function Bare(norms: seq<seq<seq<Word>>>): seq<Group> {
    seq(|norms|, k requires 0 <= k < |norms| => Group(norms[k], []))
  }

  lemma {:induction false} BareCorpus(norms: seq<seq<seq<Word>>>)
    ensures Corpus(Bare(norms), true) == NormGrams(norms)
  {
    assert NormsInOrder(Bare(norms)) == norms;
    CorpusByNorms(Bare(norms));
  }

  lemma NormsAreListed(order: seq<Group>, groups: set<Group>)
    requires Lists(order, groups) && OnePerStream(groups)
    ensures Lists(NormsInOrder(order), NormsOf(groups))
  {
    var norms := NormsInOrder(order);
    forall norm: seq<seq<Word>> ensures norm in norms <==> norm in NormsOf(groups) {
      if norm in norms {
        var k :| 0 <= k < |norms| && norms[k] == norm;
        assert order[k] in groups;
      }
      if norm in NormsOf(groups) {
        var g :| g in groups && g.norm == norm;
        var k :| 0 <= k < |order| && order[k] == g;
        assert norms[k] == norm;
      }
    }
    forall i, j | 0 <= i < j < |norms| ensures norms[i] != norms[j] {
      assert order[i] in groups && order[j] in groups && order[i] != order[j];
    }
  }

  lemma BareIsListed(norms: seq<seq<seq<Word>>>, others: seq<seq<seq<Word>>>)
    requires multiset(norms) == multiset(others)
    ensures multiset(NormGrams(norms)) == multiset(NormGrams(others))
  {
    BareCorpus(norms);
    BareCorpus(others);
    BareKeepsMultiset(norms, others);
    CorpusIgnoresOrder(Bare(norms), Bare(others), true);
  }

  lemma {:induction false} BareKeepsMultiset(norms: seq<seq<seq<Word>>>, others: seq<seq<seq<Word>>>)
    requires multiset(norms) == multiset(others)
    ensures multiset(Bare(norms)) == multiset(Bare(others))
    decreases |norms|
  {
    if norms == [] {
      assert |multiset(others)| == 0;
    } else {
      var k := PermutationStep(norms, others);
      BareWithout(norms, 0);
      BareWithout(others, k);
      hide Without;
      BareKeepsMultiset(Without(norms, 0), Without(others, k));
      TakenOut(Bare(norms), 0);
      TakenOut(Bare(others), k);
    }
  }

  lemma BareWithout(norms: seq<seq<seq<Word>>>, k: nat)
    requires k < |norms|
    ensures Bare(Without(norms, k)) == Without(Bare(norms), k)
  {
  }

  /** The normalised corpus that a target is measured against depends only on the set of distinct normalised streams. */
  lemma NormalizedCorpusSeesStreamsOnly(groups: set<Group>, others: set<Group>, norm: seq<seq<Word>>)
    requires OnePerStream(groups) && OnePerStream(others) && NormsOf(groups) == NormsOf(others)
    ensures multiset(OtherCorpus(groups, norm, true)) == multiset(OtherCorpus(others, norm, true))
  {
    var g, h := Others(groups, norm), Others(others, norm);
    assert NormsOf(g) == NormsOf(groups) - {norm};
    assert NormsOf(h) == NormsOf(others) - {norm};
    NormsAreListed(Listed(g), g);
    NormsAreListed(Listed(h), h);
    ListsAsMultiset(NormsInOrder(Listed(g)), NormsOf(g));
    ListsAsMultiset(NormsInOrder(Listed(h)), NormsOf(h));
    CorpusByNorms(Listed(g));
    CorpusByNorms(Listed(h));
    BareIsListed(NormsInOrder(Listed(g)), NormsInOrder(Listed(h)));
  }
}
