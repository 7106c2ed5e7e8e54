/** Streaming moments, and the surprisal of a submission under the model that holds its group out. */
module Surprisals {
  import opened TokenCounts
  import opened PeerModel

  // ---------------------------------------------------------------- moments

  function Total(values: seq<real>): real {
    if values == [] then 0.0 else Total(values[..|values| - 1]) + values[|values| - 1]
  }

  /** The sum of squared deviations from m, as a second pass over the values computes it. */
  function SquaredDeviation(values: seq<real>, m: real): real {
    if values == [] then 0.0
    else
      var d := values[|values| - 1] - m;
      SquaredDeviation(values[..|values| - 1], m) + d * d
  }

  /** How far the sum is from n times m. */
  function Offset(values: seq<real>, m: real): real {
    Total(values) - m * |values| as real
  }

  function Square(x: real): real {
    x * x
  }

  /** What squared deviations become when the reference point moves by e. */
  function Shifted(squares: real, offset: real, n: real, e: real): real {
    squares - 2.0 * (e * offset) + n * (e * e)
  }

  /** One more value, d away from the old reference point. */
  lemma ShiftOne(squares: real, offset: real, n: real, d: real, e: real)
    ensures Shifted(squares, offset, n, e) + Square(d - e) == Shifted(squares + Square(d), offset + d, n + 1.0, e)
  {
  }

  lemma LastValue(values: seq<real>, m: real)
    requires values != []
    ensures var init, d := values[..|values| - 1], values[|values| - 1] - m;
            && SquaredDeviation(values, m) == SquaredDeviation(init, m) + Square(d)
            && Offset(values, m) == Offset(init, m) + d && |values| as real == |init| as real + 1.0
  {
  }

  /** Moving the reference point by e. */
  lemma {:induction false} ShiftReference(values: seq<real>, m: real, e: real)
    ensures SquaredDeviation(values, m + e) == Shifted(SquaredDeviation(values, m), Offset(values, m), |values| as real, e)
  {
    if values != [] {
      hide SquaredDeviation, Offset, Square, Shifted;
      var init, v := values[..|values| - 1], values[|values| - 1];
      ShiftReference(init, m, e);
      LastValue(values, m);
      LastValue(values, m + e);
      ShiftOne(SquaredDeviation(init, m), Offset(init, m), |init| as real, v - m, e);
      assert v - (m + e) == (v - m) - e;
    }
  }

  class Moments {
    var n: nat
    var mean: real
    var m2: real

    constructor ()
      ensures Summarizes([])
    {
      n, mean, m2 := 0, 0.0, 0.0;
    }

    /** The three fields are the length, the mean and the two-pass squared deviation of these values. */
    ghost predicate Summarizes(values: seq<real>)
      reads this
    {
      n == |values| && mean * n as real == Total(values) && m2 == SquaredDeviation(values, mean) && (n == 0 ==> mean == 0.0)
    }

    method Add(value: real, ghost values: seq<real>)
      requires Summarizes(values)
      modifies this
      ensures Summarizes(values + [value])
    {
      hide SquaredDeviation, Total;
      n := n + 1;
      var delta := value - mean;
      assert n as real == |values| as real + 1.0;
      assert delta / n as real * n as real == delta;
      StreamingStep(values, value, mean, delta / n as real);
      mean := mean + delta / n as real;
      m2 := m2 + delta * (value - mean);
    }
  }

  function Spread(n: real, e: real): real {
    n * (e * e)
  }

  /** What the streaming step adds to the squared deviation. */
  function Gain(value: real, mean: real, e: real): real {
    (value - mean) * (value - (mean + e))
  }

  lemma StepAlgebra(k: real, mean: real, value: real, e: real)
    requires e * (k + 1.0) == value - mean
    ensures (mean + e) * (k + 1.0) == mean * k + value
    ensures Gain(value, mean, e) == Spread(k, e) + Square(value - (mean + e))
  {
    var r := e * k;
    assert value - mean == r + e;
    assert value - (mean + e) == r;
    assert (r + e) * r == r * r + e * r;
    assert e * r == k * (e * e);
    assert (mean + e) * (k + 1.0) == mean * (k + 1.0) + e * (k + 1.0);
  }

  lemma DeviationAppend(values: seq<real>, value: real, m: real)
    ensures SquaredDeviation(values + [value], m) == SquaredDeviation(values, m) + Square(value - m)
    ensures Total(values + [value]) == Total(values) + value
  {
    assert (values + [value])[..|values|] == values;
  }

  /** Around the mean, moving the reference point by e only adds n e^2. */
  lemma ShiftFromMean(values: seq<real>, mean: real, e: real)
    requires Offset(values, mean) == 0.0
    ensures SquaredDeviation(values, mean + e) == SquaredDeviation(values, mean) + Spread(|values| as real, e)
  {
    hide *;
    ShiftReference(values, mean, e);
    ShiftByNothing(SquaredDeviation(values, mean), |values| as real, e);
  }

  lemma ShiftByNothing(squares: real, n: real, e: real)
    ensures Shifted(squares, 0.0, n, e) == squares + Spread(n, e)
  {
  }

  lemma StreamingSquares(values: seq<real>, value: real, mean: real, e: real)
    requires Offset(values, mean) == 0.0
    requires Gain(value, mean, e) == Spread(|values| as real, e) + Square(value - (mean + e))
    ensures SquaredDeviation(values + [value], mean + e) == SquaredDeviation(values, mean) + Gain(value, mean, e)
  {
    hide *;
    ShiftFromMean(values, mean, e);
    DeviationAppend(values, value, mean + e);
  }

  lemma OffsetAtMean(values: seq<real>, mean: real)
    requires mean * |values| as real == Total(values)
    ensures Offset(values, mean) == 0.0
  {
  }

  /** One streaming step is exact: moving the mean by e, the new mean and the new squared deviation
      agree with two passes over the longer list. */
  lemma StreamingStep(values: seq<real>, value: real, mean: real, e: real)
    requires mean * |values| as real == Total(values)
    requires e * (|values| as real + 1.0) == value - mean
    ensures (mean + e) * (|values| as real + 1.0) == Total(values + [value])
    ensures SquaredDeviation(values + [value], mean + e) == SquaredDeviation(values, mean) + Gain(value, mean, e)
  {
    hide *;
    StepAlgebra(|values| as real, mean, value, e);
    OffsetAtMean(values, mean);
    StreamingSquares(values, value, mean, e);
    DeviationAppend(values, value, mean + e);
  }

  // ---------------------------------------------------------------- surprisals

  /** The tokens as the model knows them. */
  function KnownWords(rest: seq<Gram>, words: seq<Word>): (r: seq<Word>)
    ensures |r| == |words|
  {
    seq(|words|, k requires 0 <= k < |words| => if words[k] in Seen(rest) then words[k] else UNKNOWN)
  }

  /** The surprisal of each token of a file given the one before it. */
  ghost function FileSurprisals(rest: seq<Gram>, log2: real -> real, words: seq<Word>): (r: seq<real>)
    ensures |r| == |words|
  {
    var grams := FileGrams(KnownWords(rest, words));
    seq(|words|, k requires 0 <= k < |words| => -log2(Model(rest, grams[k].0, grams[k].1)))
  }

  /** What the model sees before token k. */
  function PreviousWord(rest: seq<Gram>, words: seq<Word>, k: nat): Word
    requires k <= |words|
  {
    if k == 0 then START else KnownWords(rest, words)[k - 1]
  }

  lemma SurprisalAt(rest: seq<Gram>, log2: real -> real, words: seq<Word>, k: nat)
    requires k < |words|
    ensures var known := if words[k] in Seen(rest) then words[k] else UNKNOWN;
            && FileSurprisals(rest, log2, words)[..k] + [-log2(Model(rest, PreviousWord(rest, words, k), known))]
               == FileSurprisals(rest, log2, words)[..k + 1]
            && PreviousWord(rest, words, k + 1) == known
            && UnknownIn(rest, words[..k + 1]) == UnknownIn(rest, words[..k]) + if words[k] in Seen(rest) then 0 else 1
  {
    hide Model;
    assert words[..k + 1][..k] == words[..k];
  }

  ghost function SeriesOf(rest: seq<Gram>, log2: real -> real, streams: seq<seq<Word>>): (r: seq<seq<real>>)
    ensures |r| == |streams|
  {
    seq(|streams|, i requires 0 <= i < |streams| => FileSurprisals(rest, log2, streams[i]))
  }

  /** Surprisals are never negative, as probabilities are proper. */
  lemma SeriesIsNonNegative(rest: seq<Gram>, log2: real -> real, streams: seq<seq<Word>>, i: nat, k: nat)
    requires forall x: real :: 0.0 < x <= 1.0 ==> log2(x) <= 0.0
    requires i < |streams| && k < |streams[i]|
    ensures SeriesOf(rest, log2, streams)[i][k] >= 0.0
  {
    hide Model;
    var grams := FileGrams(KnownWords(rest, streams[i]));
    ProbabilityIsProper(rest, grams[k].0, grams[k].1);
  }

  /** All surprisals of a submission in reading order. */
  ghost function Flat(series: seq<seq<real>>): seq<real> {
    if series == [] then [] else Flat(series[..|series| - 1]) + series[|series| - 1]
  }

  ghost function UnknownIn(rest: seq<Gram>, words: seq<Word>): nat {
    if words == [] then 0
    else UnknownIn(rest, words[..|words| - 1]) + if words[|words| - 1] in Seen(rest) then 0 else 1
  }

  ghost function UnknownCount(rest: seq<Gram>, streams: seq<seq<Word>>): nat {
    if streams == [] then 0
    else UnknownCount(rest, streams[..|streams| - 1]) + UnknownIn(rest, streams[|streams| - 1])
  }

  /** ai_metrics.go, lines 154-159: the key order of the map does not matter. */
  method CountVocabulary(corpus: Counts, excluded: Counts) returns (vocabulary: nat)
    ensures vocabulary == Vocabulary(corpus, excluded)
  {
    vocabulary := 1;
    var keys := corpus.tokens.Keys;
    ghost var counted: set<Word> := {};
    while keys != {}
      invariant keys <= corpus.tokens.Keys
      invariant counted == set t | t in corpus.tokens.Keys - keys && At(corpus.tokens, t) > At(excluded.tokens, t)
      invariant vocabulary == 1 + |counted|
      decreases |keys|
    {
      var token :| token in keys;
      if corpus.tokens[token] > At(excluded.tokens, token) {
        vocabulary, counted := vocabulary + 1, counted + {token};
      }
      keys := keys - {token};
    }
    assert counted == Surviving(corpus, excluded);
  }

  /** ai_metrics.go, lines 166-182: one token. */
  method TokenStep(item: MetricToken, previous: Word, corpus: Counts, excluded: Counts, normalized: bool, vocabulary: nat,
                   log2: real -> real, ghost rest: seq<Gram>) returns (token: Word, surprisal: real, known: bool)
    requires HoldsOut(corpus, excluded, rest) && vocabulary == Vocabulary(corpus, excluded)
    ensures known <==> WordOf(item, normalized) in Seen(rest)
    ensures token == if known then WordOf(item, normalized) else UNKNOWN
    ensures surprisal == -log2(Model(rest, previous, token))
  {
    hide HoldsOut, Model, Probability;
    token, known := WordOf(item, normalized), true;
    HoldOutIsARebuild(corpus, excluded, rest, previous, token);
    if At(corpus.tokens, token) == At(excluded.tokens, token) {
      token, known := UNKNOWN, false;
    }
    HoldOutIsARebuild(corpus, excluded, rest, previous, token);
    surprisal := -log2(Probability(corpus, excluded, vocabulary, previous, token));
  }

  /** ai_metrics.go, lines 164-184: one file. */
  method FilePass(tokens: seq<MetricToken>, corpus: Counts, excluded: Counts, normalized: bool, vocabulary: nat, log2: real -> real,
                  moments: Moments, ghost rest: seq<Gram>, ghost before: seq<real>) returns (values: seq<real>, unknown: nat)
    requires HoldsOut(corpus, excluded, rest) && vocabulary == Vocabulary(corpus, excluded)
    requires moments.Summarizes(before)
    modifies moments
    ensures values == FileSurprisals(rest, log2, Words(tokens, normalized))
    ensures unknown == UnknownIn(rest, Words(tokens, normalized))
    ensures moments.Summarizes(before + values)
  {
    hide HoldsOut, Model, Seen, FileSurprisals, Vocabulary, PreviousWord, UnknownIn, Moments.Summarizes;
    ghost var words := Words(tokens, normalized);
    var previous := START;
    values, unknown := [], 0;
    StartOfFile(rest, words);
    assert before + [] == before;
    for k := 0 to |tokens|
      invariant previous == PreviousWord(rest, words, k)
      invariant values == FileSurprisals(rest, log2, words)[..k]
      invariant unknown == UnknownIn(rest, words[..k])
      invariant moments.Summarizes(before + values)
    {
      var token, surprisal, known := TokenStep(tokens[k], previous, corpus, excluded, normalized, vocabulary, log2, rest);
      if !known {
        unknown := unknown + 1;
      }
      SurprisalAt(rest, log2, words, k);
      moments.Add(surprisal, before + values);
      assert before + values + [surprisal] == before + (values + [surprisal]);
      values := values + [surprisal];
      previous := token;
    }
    assert words[..|words|] == words;
  }

  lemma StartOfFile(rest: seq<Gram>, words: seq<Word>)
    ensures PreviousWord(rest, words, 0) == START && UnknownIn(rest, words[..0]) == 0
  {
  }

  /** ai_metrics.go, lines 153-188: a submission's surprisals under the model counted from the rest alone,
      their exact mean and squared deviation, and how many of its tokens no peer uses. */
  method PeerSurprisals(files: Source, corpus: Counts, excluded: Counts, normalized: bool, log2: real -> real, ghost rest: seq<Gram>)
    returns (series: seq<seq<real>>, moments: Moments, unknown: nat)
    requires HoldsOut(corpus, excluded, rest)
    ensures series == SeriesOf(rest, log2, Streams(files, normalized))
    ensures fresh(moments) && moments.Summarizes(Flat(series))
    ensures unknown == UnknownCount(rest, Streams(files, normalized))
  {
    hide HoldsOut, FileSurprisals, UnknownIn, Vocabulary, Moments.Summarizes, SeriesOf, UnknownCount, Flat;
    var vocabulary := CountVocabulary(corpus, excluded);
    ghost var streams := Streams(files, normalized);
    series, unknown := [], 0;
    moments := new Moments();
    NothingYet(rest, streams, series);
    for i := 0 to |files|
      invariant fresh(moments) && moments.Summarizes(Flat(series))
      invariant series == SeriesOf(rest, log2, streams)[..i]
      invariant unknown == UnknownCount(rest, streams[..i])
    {
      var values, missing := FilePass(files[i], corpus, excluded, normalized, vocabulary, log2, moments, rest, Flat(series));
      OneMoreFile(rest, log2, streams, i, series);
      series := series + [values];
      unknown := unknown + missing;
    }
    assert streams[..|streams|] == streams;
  }

  lemma NothingYet(rest: seq<Gram>, streams: seq<seq<Word>>, series: seq<seq<real>>)
    requires series == []
    ensures Flat(series) == [] && UnknownCount(rest, streams[..0]) == 0
  {
  }

  lemma OneMoreFile(rest: seq<Gram>, log2: real -> real, streams: seq<seq<Word>>, i: nat, series: seq<seq<real>>)
    requires i < |streams| && series == SeriesOf(rest, log2, streams)[..i]
    ensures series + [FileSurprisals(rest, log2, streams[i])] == SeriesOf(rest, log2, streams)[..i + 1]
    ensures Flat(series + [FileSurprisals(rest, log2, streams[i])]) == Flat(series) + FileSurprisals(rest, log2, streams[i])
    ensures UnknownCount(rest, streams[..i + 1]) == UnknownCount(rest, streams[..i]) + UnknownIn(rest, streams[i])
  {
    hide FileSurprisals, UnknownIn;
    assert streams[..i + 1][..i] == streams[..i];
    assert (series + [FileSurprisals(rest, log2, streams[i])])[..i] == series;
  }
}
