/** The held-out bigram model: a group's own counts are subtracted from the shared corpus. */
module PeerModel {
  import opened TokenCounts

  /** The bucket that all unseen tokens share: <unknown>. */
  const UNKNOWN: Word := [60, 117, 110, 107, 110, 111, 119, 110, 62]

  const SMOOTHING: real := 0.5
  const BACKOFF: real := 5.0

  /** `rest` is what is left of the corpus when the excluded stream is taken out. */
  ghost predicate HoldsOut(corpus: Counts, excluded: Counts, rest: seq<Gram>) {
    exists all, own :: Represents(corpus, all) && Represents(excluded, own) && multiset(all) == multiset(own) + multiset(rest)
  }

  /** The held-out counts, by subtraction. */
  function Left<K>(m: map<K, nat>, n: map<K, nat>, key: K): int {
    At(m, key) - At(n, key)
  }

  /** Subtraction equals recounting the rest from nothing, so no difference is ever negative. */
  lemma SubtractingIsRecounting(corpus: Counts, excluded: Counts, rest: seq<Gram>)
    requires HoldsOut(corpus, excluded, rest)
    ensures corpus.total - excluded.total == |rest|
    ensures forall t: Word :: Left(corpus.tokens, excluded.tokens, t) == multiset(Seconds(rest))[t]
    ensures forall p: Word :: Left(corpus.contexts, excluded.contexts, p) == multiset(Firsts(rest))[p]
    ensures forall x: Gram :: Left(corpus.pairs, excluded.pairs, x) == multiset(rest)[x]
  {
    hide Firsts, Seconds, Tallies, Left, At;
    var all, own :| Represents(corpus, all) && Represents(excluded, own) && multiset(all) == multiset(own) + multiset(rest);
    assert multiset(own + rest) == multiset(all);
    ProjectionsIgnoreOrder(all, own + rest);
    ProjectionsAppend(own, rest);
    assert |all| == |multiset(all)| == |own| + |rest|;
    TallyDifference(corpus.tokens, Seconds(all), excluded.tokens, Seconds(own), Seconds(rest));
    TallyDifference(corpus.contexts, Firsts(all), excluded.contexts, Firsts(own), Firsts(rest));
    TallyDifference(corpus.pairs, all, excluded.pairs, own, rest);
  }

  lemma TallyDifference<K(!new)>(m: map<K, nat>, all: seq<K>, n: map<K, nat>, own: seq<K>, rest: seq<K>)
    requires Tallies(m, all) && Tallies(n, own) && multiset(all) == multiset(own) + multiset(rest)
    ensures forall key: K :: Left(m, n, key) == multiset(rest)[key]
  {
    forall key: K ensures Left(m, n, key) == multiset(rest)[key] {
      assert At(m, key) == multiset(all)[key] && At(n, key) == multiset(own)[key];
    }
  }

  // ---------------------------------------------------------------- probabilities

  /** The tokens some peer uses. */
  function Surviving(corpus: Counts, excluded: Counts): set<Word> {
    set t | t in corpus.tokens && At(corpus.tokens, t) > At(excluded.tokens, t)
  }

  function Vocabulary(corpus: Counts, excluded: Counts): nat {
    1 + |Surviving(corpus, excluded)|
  }

  function Unigram(corpus: Counts, excluded: Counts, vocabulary: nat, token: Word): real
    requires corpus.total >= excluded.total && vocabulary > 0
  {
    (Left(corpus.tokens, excluded.tokens, token) as real + SMOOTHING)
    / ((corpus.total - excluded.total) as real + SMOOTHING * vocabulary as real)
  }

  function Probability(corpus: Counts, excluded: Counts, vocabulary: nat, previous: Word, token: Word): real
    requires corpus.total >= excluded.total && vocabulary > 0
    requires Left(corpus.contexts, excluded.contexts, previous) >= 0
  {
    (Left(corpus.pairs, excluded.pairs, (previous, token)) as real + BACKOFF * Unigram(corpus, excluded, vocabulary, token))
    / (Left(corpus.contexts, excluded.contexts, previous) as real + BACKOFF)
  }

  // ---------------------------------------------------------------- the model by definition

  /** The tokens of a stream. */
  function Seen(g: seq<Gram>): set<Word> {
    set k | 0 <= k < |g| :: g[k].1
  }

  /** A smoothed share of the pair count a and the token count b. */
  function SmoothedShare(a: nat, b: nat, n: nat, d: real, k: real): real
    requires d > 0.0 && k > 0.0
  {
    (a as real + BACKOFF * ((b as real + SMOOTHING * n as real) / d)) / k
  }

  /** The smoothed token total over which unigram shares are taken. */
  function Denominator(g: seq<Gram>): real {
    |g| as real + SMOOTHING * (1 + |Seen(g)|) as real
  }

  /** P(t | p) in the model that counts the stream g from nothing. */
  function Model(g: seq<Gram>, p: Word, t: Word): real {
    SmoothedShare(multiset(g)[(p, t)], multiset(Seconds(g))[t], 1, Denominator(g), multiset(Firsts(g))[p] as real + BACKOFF)
  }

  lemma SeenCounts(g: seq<Gram>, t: Word)
    ensures t in Seen(g) <==> multiset(Seconds(g))[t] > 0
  {
    if t in Seen(g) {
      var k :| 0 <= k < |g| && g[k].1 == t;
      assert Seconds(g)[k] == t;
    }
    if t in multiset(Seconds(g)) {
      var k :| 0 <= k < |g| && Seconds(g)[k] == t;
      assert g[k].1 == t;
    }
  }

  lemma SurvivorsAreSeen(corpus: Counts, excluded: Counts, rest: seq<Gram>)
    requires HoldsOut(corpus, excluded, rest)
    ensures Surviving(corpus, excluded) == Seen(rest)
  {
    hide HoldsOut;
    SubtractingIsRecounting(corpus, excluded, rest);
    forall t: Word ensures t in Surviving(corpus, excluded) <==> t in Seen(rest) {
      assert Left(corpus.tokens, excluded.tokens, t) == multiset(Seconds(rest))[t];
      SeenCounts(rest, t);
    }
  }

  /** Holding a group out by subtraction gives the probabilities of a model counted without that group. */
  lemma HoldOutIsARebuild(corpus: Counts, excluded: Counts, rest: seq<Gram>, previous: Word, token: Word)
    requires HoldsOut(corpus, excluded, rest)
    ensures corpus.total >= excluded.total && Left(corpus.contexts, excluded.contexts, previous) >= 0
    ensures Probability(corpus, excluded, Vocabulary(corpus, excluded), previous, token) == Model(rest, previous, token)
    ensures At(corpus.tokens, token) == At(excluded.tokens, token) <==> token !in Seen(rest)
  {
    hide HoldsOut;
    SubtractingIsRecounting(corpus, excluded, rest);
    SurvivorsAreSeen(corpus, excluded, rest);
    assert Left(corpus.tokens, excluded.tokens, token) == multiset(Seconds(rest))[token];
    assert Left(corpus.contexts, excluded.contexts, previous) == multiset(Firsts(rest))[previous];
    assert Left(corpus.pairs, excluded.pairs, (previous, token)) == multiset(rest)[(previous, token)];
    SeenCounts(rest, token);
  }

  /** The model does not depend on the order in which the stream is counted. */
  lemma ModelIgnoresOrder(g: seq<Gram>, h: seq<Gram>, p: Word, t: Word)
    requires multiset(g) == multiset(h)
    ensures Model(g, p, t) == Model(h, p, t) && Seen(g) == Seen(h)
  {
    ProjectionsIgnoreOrder(g, h);
    forall x: Word ensures x in Seen(g) <==> x in Seen(h) {
      SeenCounts(g, x);
      SeenCounts(h, x);
    }
    assert Seen(g) == Seen(h);
    assert |multiset(g)| == |g| && |multiset(h)| == |h|;
  }

  /** In a context that no peer has, a probability is the share of the token with half a count added to every known token and to the unknown one. */
  lemma UnseenContext(g: seq<Gram>, p: Word, t: Word)
    requires p !in Firsts(g)
    ensures Model(g, p, t) * (|g| as real + 0.5 * (1 + |Seen(g)|) as real) == multiset(Seconds(g))[t] as real + 0.5
  {
    NoSuchPair(g, p, t);
    var d, x := Denominator(g), multiset(Seconds(g))[t] as real + 0.5;
    assert Model(g, p, t) == (0.0 + 5.0 * (x / d)) / (0.0 + 5.0);
    assert (x / d) * d == x;
  }

  lemma NoSuchPair(g: seq<Gram>, p: Word, t: Word)
    requires p !in Firsts(g)
    ensures multiset(g)[(p, t)] == 0 && multiset(Firsts(g))[p] == 0
  {
    PairIsRare(g, p, t);
    assert p !in multiset(Firsts(g));
  }

  /** A context mixes what followed it with five parts of the probability that an unseen context gives. */
  lemma ContextMixesIn(g: seq<Gram>, p: Word, q: Word, t: Word)
    requires q !in Firsts(g)
    ensures Model(g, p, t) * (multiset(Firsts(g))[p] as real + 5.0) == multiset(g)[(p, t)] as real + 5.0 * Model(g, q, t)
  {
    NoSuchPair(g, q, t);
    var u := (multiset(Seconds(g))[t] as real + 0.5) / Denominator(g);
    var k, pair := multiset(Firsts(g))[p] as real + 5.0, multiset(g)[(p, t)] as real;
    assert Model(g, q, t) == (0.0 + 5.0 * u) / (0.0 + 5.0) == u;
    assert Model(g, p, t) == (pair + 5.0 * u) / k;
    assert (pair + 5.0 * u) / k * k == pair + 5.0 * u;
  }

  // ---------------------------------------------------------------- sums over a set of tokens

  ghost function SumNat(s: set<Word>, f: Word -> nat): nat
    decreases |s|
  {
    if s == {} then 0 else var t :| t in s; f(t) + SumNat(s - {t}, f)
  }

  ghost function Sum(s: set<Word>, f: Word -> real): real
    decreases |s|
  {
    if s == {} then 0.0 else var t :| t in s; f(t) + Sum(s - {t}, f)
  }

  lemma {:induction false} SumNatTakesOut(s: set<Word>, f: Word -> nat, x: Word)
    requires x in s
    ensures SumNat(s, f) == f(x) + SumNat(s - {x}, f)
    decreases |s|
  {
    var t :| t in s && SumNat(s, f) == f(t) + SumNat(s - {t}, f);
    if t != x {
      SumNatTakesOut(s - {t}, f, x);
      SumNatTakesOut(s - {x}, f, t);
      assert s - {t} - {x} == s - {x} - {t};
    }
  }

  lemma {:induction false} SumNatOfZeros(s: set<Word>, f: Word -> nat)
    requires forall t :: t in s ==> f(t) == 0
    ensures SumNat(s, f) == 0
    decreases |s|
  {
    if s != {} {
      var t :| t in s && SumNat(s, f) == f(t) + SumNat(s - {t}, f);
      SumNatOfZeros(s - {t}, f);
    }
  }

  /** Two sums that differ in one place by one. */
  lemma {:induction false} SumNatPlusOne(s: set<Word>, f: Word -> nat, g: Word -> nat, x: Word)
    requires x in s && g(x) == f(x) + 1
    requires forall t :: t in s && t != x ==> g(t) == f(t)
    ensures SumNat(s, g) == SumNat(s, f) + 1
  {
    SumNatTakesOut(s, f, x);
    SumNatTakesOut(s, g, x);
    SumNatAgree(s - {x}, f, g);
  }

  lemma {:induction false} SumNatAgree(s: set<Word>, f: Word -> nat, g: Word -> nat)
    requires forall t :: t in s ==> f(t) == g(t)
    ensures SumNat(s, f) == SumNat(s, g)
    decreases |s|
  {
    if s != {} {
      var t :| t in s && SumNat(s, f) == f(t) + SumNat(s - {t}, f);
      SumNatTakesOut(s, g, t);
      SumNatAgree(s - {t}, f, g);
    }
  }

  /** How often the pair (p, t) occurs. */
  ghost function PairCount(g: seq<Gram>, p: Word): Word -> nat {
    t => multiset(g)[(p, t)]
  }

  ghost function TokenCount(g: seq<Gram>): Word -> nat {
    t => multiset(Seconds(g))[t]
  }

  /** A context's count is the sum of its pair counts. */
  lemma {:induction false} ContextIsSumOfPairs(g: seq<Gram>, s: set<Word>, p: Word)
    requires forall k :: 0 <= k < |g| ==> g[k].1 in s
    ensures SumNat(s, PairCount(g, p)) == multiset(Firsts(g))[p]
  {
    if g == [] {
      SumNatOfZeros(s, PairCount(g, p));
    } else {
      var init, x := g[..|g| - 1], g[|g| - 1];
      ContextIsSumOfPairs(init, s, p);
      assert g == init + [x] && Firsts(g) == Firsts(init) + [x.0];
      if x.0 == p {
        SumNatPlusOne(s, PairCount(init, p), PairCount(g, p), x.1);
      } else {
        SumNatAgree(s, PairCount(init, p), PairCount(g, p));
      }
    }
  }

  /** The total is the sum of the token counts. */
  lemma {:induction false} TotalIsSumOfTokens(g: seq<Gram>, s: set<Word>)
    requires forall k :: 0 <= k < |g| ==> g[k].1 in s
    ensures SumNat(s, TokenCount(g)) == |g|
  {
    if g == [] {
      SumNatOfZeros(s, TokenCount(g));
    } else {
      var init, x := g[..|g| - 1], g[|g| - 1];
      TotalIsSumOfTokens(init, s);
      assert g == init + [x] && Seconds(g) == Seconds(init) + [x.1];
      SumNatPlusOne(s, TokenCount(init), TokenCount(g), x.1);
    }
  }

  // ---------------------------------------------------------------- a true distribution

  lemma {:induction false} PairIsRare(g: seq<Gram>, p: Word, t: Word)
    ensures multiset(g)[(p, t)] <= multiset(Firsts(g))[p]
    ensures multiset(g)[(p, t)] <= multiset(Seconds(g))[t] <= |g|
  {
    if g != [] {
      var init, x := g[..|g| - 1], g[|g| - 1];
      PairIsRare(init, p, t);
      assert g == init + [x] && Firsts(g) == Firsts(init) + [x.0] && Seconds(g) == Seconds(init) + [x.1];
    }
  }

  lemma SmoothedSharesAdd(a: nat, b: nat, n: nat, a': nat, b': nat, n': nat, d: real, k: real)
    requires d > 0.0 && k > 0.0
    ensures SmoothedShare(a, b, n, d, k) + SmoothedShare(a', b', n', d, k) == SmoothedShare(a + a', b + b', n + n', d, k)
  {
    var x, y := b as real + SMOOTHING * n as real, b' as real + SMOOTHING * n' as real;
    assert x / d + y / d == (x + y) / d;
    assert x + y == (b + b') as real + SMOOTHING * (n + n') as real;
    assert (a as real + BACKOFF * (x / d)) / k + (a' as real + BACKOFF * (y / d)) / k
           == ((a as real + BACKOFF * (x / d)) + (a' as real + BACKOFF * (y / d))) / k;
  }

  lemma NoShare(d: real, k: real)
    requires d > 0.0 && k > 0.0
    ensures SmoothedShare(0, 0, 0, d, k) == 0.0
  {
    assert 0.0 / d == 0.0 && 0.0 / k == 0.0;
  }

  /** Sums of smoothed shares add up count by count. */
  lemma {:induction false} SumOfShares(s: set<Word>, f: Word -> real, a: Word -> nat, b: Word -> nat, d: real, k: real)
    requires d > 0.0 && k > 0.0
    requires forall t :: t in s ==> f(t) == SmoothedShare(a(t), b(t), 1, d, k)
    ensures Sum(s, f) == SmoothedShare(SumNat(s, a), SumNat(s, b), |s|, d, k)
    decreases |s|
  {
    hide SmoothedShare;
    if s == {} {
      NoShare(d, k);
    } else {
      var t :| t in s && Sum(s, f) == f(t) + Sum(s - {t}, f);
      SumOfShares(s - {t}, f, a, b, d, k);
      SumNatTakesOut(s, a, t);
      SumNatTakesOut(s, b, t);
      hide Sum, SumNat;
      SmoothedSharesAdd(a(t), b(t), 1, SumNat(s - {t}, a), SumNat(s - {t}, b), |s| - 1, d, k);
    }
  }

  lemma ModelIsShare(g: seq<Gram>, p: Word, t: Word)
    ensures Model(g, p, t) == SmoothedShare(PairCount(g, p)(t), TokenCount(g)(t), 1, Denominator(g), multiset(Firsts(g))[p] as real + BACKOFF)
  {
  }

  /** For every context, the probabilities of all tokens that survive and of the unknown bucket add up to exactly one,
      if and only if no surviving token is spelled like the bucket itself. */
  lemma ProbabilitiesSumToOne(g: seq<Gram>, p: Word)
    ensures Sum(Seen(g), t => Model(g, p, t)) + Model(g, p, UNKNOWN) == 1.0 <==> UNKNOWN !in Seen(g)
  {
    var s, d, k := Seen(g), Denominator(g), multiset(Firsts(g))[p] as real + BACKOFF;
    ContextIsSumOfPairs(g, s, p);
    TotalIsSumOfTokens(g, s);
    SeenCounts(g, UNKNOWN);
    PairIsRare(g, p, UNKNOWN);
    forall t: Word ensures Model(g, p, t) == SmoothedShare(PairCount(g, p)(t), TokenCount(g)(t), 1, d, k) {
      ModelIsShare(g, p, t);
    }
    hide Model, SmoothedShare, Denominator;
    MassOf(multiset(g)[(p, UNKNOWN)], multiset(Seconds(g))[UNKNOWN], multiset(Firsts(g))[p], |g|, |s|);
    assert Model(g, p, UNKNOWN) == SmoothedShare(multiset(g)[(p, UNKNOWN)], multiset(Seconds(g))[UNKNOWN], 1, d, k);
    hide Seen;
    SumOfShares(s, t => Model(g, p, t), PairCount(g, p), TokenCount(g), d, k);
  }

  lemma Below(x: real, y: real)
    requires y > 0.0
    ensures (x / y < 1.0 <==> x < y) && (x / y == 1.0 <==> x == y) && (x / y > 0.0 <==> x > 0.0)
  {
    assert (x / y) * y == x;
  }

  /** The arithmetic of the total: the mass beyond one comes only from a token that is spelled like the bucket. */
  lemma MassOf(pair: nat, token: nat, context: nat, total: nat, n: nat)
    ensures var d := total as real + SMOOTHING * (1 + n) as real;
            var k := context as real + BACKOFF;
            SmoothedShare(context, total, n, d, k) + SmoothedShare(pair, token, 1, d, k) == 1.0 <==> pair == 0 && token == 0
  {
    var d := total as real + SMOOTHING * (1 + n) as real;
    var k := context as real + BACKOFF;
    SmoothedSharesAdd(context, total, n, pair, token, 1, d, k);
    var u := (total + token) as real + SMOOTHING * (n + 1) as real;
    assert u == d + token as real;
    assert u / d == 1.0 + token as real / d;
    Below(token as real, d);
    Below((context + pair) as real + BACKOFF * (u / d), k);
  }

  /** Every probability the model hands out is positive, and below one exactly when the peers have a token. */
  lemma ProbabilityIsProper(g: seq<Gram>, p: Word, t: Word)
    requires t == UNKNOWN || t in Seen(g)
    ensures 0.0 < Model(g, p, t) <= 1.0
    ensures Model(g, p, t) < 1.0 <==> g != []
  {
    PairIsRare(g, p, t);
    if g != [] {
      assert g[0].1 in Seen(g);
    }
    ProperShare(multiset(g)[(p, t)], multiset(Seconds(g))[t], multiset(Firsts(g))[p], |g|, |Seen(g)|);
  }

  lemma ProperShare(pair: nat, token: nat, context: nat, total: nat, n: nat)
    requires pair <= context && token <= total && (total > 0 <==> n > 0) && (total == 0 ==> context == 0)
    ensures var share := SmoothedShare(pair, token, 1, total as real + SMOOTHING * (1 + n) as real, context as real + BACKOFF);
            0.0 < share <= 1.0 && (share < 1.0 <==> total > 0)
  {
    var d := total as real + SMOOTHING * (1 + n) as real;
    var k := context as real + BACKOFF;
    Below(token as real + SMOOTHING, d);
    Below(pair as real + BACKOFF * ((token as real + SMOOTHING) / d), k);
  }
}
