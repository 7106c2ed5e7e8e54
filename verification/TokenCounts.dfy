/** Counting tokens, the contexts they follow and the pairs they form. */
module TokenCounts {

  newtype byte = x: int | 0 <= x < 256

  /** A token's text, byte by byte. */
  type Word = seq<byte>

  /** A token together with the one before it in its file. */
  type Gram = (Word, Word)

  /** The context of a file's first token: <start>. */
  const START: Word := [60, 115, 116, 97, 114, 116, 62]

  datatype MetricToken = MetricToken(raw: Word, normalized: Word, file: string, line: nat, endLine: nat)

  /** The files of one submission. */
  type Source = seq<seq<MetricToken>>

  function WordOf(item: MetricToken, normalized: bool): Word {
    if normalized then item.normalized else item.raw
  }

  function Words(tokens: seq<MetricToken>, normalized: bool): seq<Word> {
    seq(|tokens|, k requires 0 <= k < |tokens| => WordOf(tokens[k], normalized))
  }

  /** The word streams of a submission, one per file. */
  function Streams(source: Source, normalized: bool): seq<seq<Word>> {
    seq(|source|, k requires 0 <= k < |source| => Words(source[k], normalized))
  }

  /** The grams of one file; the context starts anew. */
  function FileGrams(words: seq<Word>): (g: seq<Gram>)
    ensures |g| == |words|
  {
    seq(|words|, k requires 0 <= k < |words| => (if k == 0 then START else words[k - 1], words[k]))
  }

  function Grams(streams: seq<seq<Word>>): seq<Gram> {
    if streams == [] then [] else Grams(streams[..|streams| - 1]) + FileGrams(streams[|streams| - 1])
  }

  function Firsts(g: seq<Gram>): (r: seq<Word>)
    ensures |r| == |g|
  {
    seq(|g|, k requires 0 <= k < |g| => g[k].0)
  }

  function Seconds(g: seq<Gram>): (r: seq<Word>)
    ensures |r| == |g|
  {
    seq(|g|, k requires 0 <= k < |g| => g[k].1)
  }

  /** A count map read as Go reads it: a missing key counts zero. */
  function At<K>(m: map<K, nat>, key: K): nat {
    if key in m then m[key] else 0
  }

  /** The map holds how often each key occurs in the list. */
  ghost predicate Tallies<K(!new)>(m: map<K, nat>, s: seq<K>) {
    forall key: K :: At(m, key) == multiset(s)[key]
  }

  function Bump<K>(m: map<K, nat>, key: K): map<K, nat> {
    m[key := At(m, key) + 1]
  }

  function AddMaps<K>(m: map<K, nat>, n: map<K, nat>): map<K, nat> {
    map key | key in m.Keys + n.Keys :: At(m, key) + At(n, key)
  }

  lemma BumpTallies<K(!new)>(m: map<K, nat>, s: seq<K>, x: K)
    requires Tallies(m, s)
    ensures Tallies(Bump(m, x), s + [x])
  {
    forall key: K ensures At(Bump(m, x), key) == multiset(s + [x])[key] {
      assert At(m, key) == multiset(s)[key];
    }
  }

  lemma AddTallies<K(!new)>(m: map<K, nat>, s: seq<K>, n: map<K, nat>, t: seq<K>)
    requires Tallies(m, s) && Tallies(n, t)
    ensures Tallies(AddMaps(m, n), s + t)
  {
    forall key: K ensures At(AddMaps(m, n), key) == multiset(s + t)[key] {
      assert At(m, key) == multiset(s)[key] && At(n, key) == multiset(t)[key];
    }
  }

  datatype Counts = Counts(total: nat, tokens: map<Word, nat>, contexts: map<Word, nat>, pairs: map<Gram, nat>)

  const EMPTY: Counts := Counts(0, map[], map[], map[])

  /** These counts are what counting the grams one by one gives. */
  ghost predicate Represents(c: Counts, g: seq<Gram>) {
    c.total == |g| && Tallies(c.tokens, Seconds(g)) && Tallies(c.contexts, Firsts(g)) && Tallies(c.pairs, g)
  }

  function CountOne(c: Counts, x: Gram): Counts {
    Counts(c.total + 1, Bump(c.tokens, x.1), Bump(c.contexts, x.0), Bump(c.pairs, x))
  }

  function AddCountsTo(c: Counts, d: Counts): Counts {
    Counts(c.total + d.total, AddMaps(c.tokens, d.tokens), AddMaps(c.contexts, d.contexts), AddMaps(c.pairs, d.pairs))
  }

  lemma CountingOneMore(c: Counts, g: seq<Gram>, x: Gram)
    requires Represents(c, g)
    ensures Represents(CountOne(c, x), g + [x])
  {
    hide Tallies, Bump;
    assert Seconds(g + [x]) == Seconds(g) + [x.1];
    assert Firsts(g + [x]) == Firsts(g) + [x.0];
    BumpTallies(c.tokens, Seconds(g), x.1);
    BumpTallies(c.contexts, Firsts(g), x.0);
    BumpTallies(c.pairs, g, x);
  }

  /** Adding two counts is counting the two streams together. */
  lemma AddingIsCountingTogether(c: Counts, g: seq<Gram>, d: Counts, h: seq<Gram>)
    requires Represents(c, g) && Represents(d, h)
    ensures Represents(AddCountsTo(c, d), g + h)
  {
    hide Tallies, AddMaps;
    assert Seconds(g + h) == Seconds(g) + Seconds(h);
    assert Firsts(g + h) == Firsts(g) + Firsts(h);
    AddTallies(c.tokens, Seconds(g), d.tokens, Seconds(h));
    AddTallies(c.contexts, Firsts(g), d.contexts, Firsts(h));
    AddTallies(c.pairs, g, d.pairs, h);
  }

  lemma ProjectionsAppend(g: seq<Gram>, h: seq<Gram>)
    ensures multiset(Firsts(g + h)) == multiset(Firsts(g)) + multiset(Firsts(h))
    ensures multiset(Seconds(g + h)) == multiset(Seconds(g)) + multiset(Seconds(h))
  {
    assert Firsts(g + h) == Firsts(g) + Firsts(h);
    assert Seconds(g + h) == Seconds(g) + Seconds(h);
  }

  /** Taking one gram out takes one word out of each projection. */
  lemma ProjectionsWithout(g: seq<Gram>, k: nat)
    requires k < |g|
    ensures var rest := g[..k] + g[k + 1..];
            && multiset(g) == multiset(rest) + multiset{g[k]}
            && multiset(Firsts(g)) == multiset(Firsts(rest)) + multiset{g[k].0}
            && multiset(Seconds(g)) == multiset(Seconds(rest)) + multiset{g[k].1}
  {
    var x := [g[k]];
    assert Firsts(x) == [g[k].0] && Seconds(x) == [g[k].1];
    hide Firsts, Seconds;
    assert g == (g[..k] + x) + g[k + 1..];
    ProjectionsAppend(g[..k] + x, g[k + 1..]);
    ProjectionsAppend(g[..k], x);
    ProjectionsAppend(g[..k], g[k + 1..]);
  }

  lemma SameRest<T>(m: multiset<T>, n: multiset<T>, x: T)
    requires m + multiset{x} == n + multiset{x}
    ensures m == n
  {
    assert m == (m + multiset{x}) - multiset{x};
    assert n == (n + multiset{x}) - multiset{x};
  }

  /** Counts see the multiset of grams, not their order. */
  lemma {:induction false} ProjectionsIgnoreOrder(g: seq<Gram>, h: seq<Gram>)
    requires multiset(g) == multiset(h)
    ensures multiset(Firsts(g)) == multiset(Firsts(h)) && multiset(Seconds(g)) == multiset(Seconds(h))
    decreases |g|
  {
    hide Firsts, Seconds;
    if g == [] {
      assert |multiset(h)| == 0;
      assert h == [];
    } else {
      var x := g[0];
      assert x in multiset(h);
      var k :| 0 <= k < |h| && h[k] == x;
      ProjectionsWithout(g, 0);
      ProjectionsWithout(h, k);
      SameRest(multiset(g[..0] + g[1..]), multiset(h[..k] + h[k + 1..]), x);
      ProjectionsIgnoreOrder(g[..0] + g[1..], h[..k] + h[k + 1..]);
    }
  }

  // ---------------------------------------------------------------- the code

  class Tally {
    var total: nat
    var tokens: map<Word, nat>
    var contexts: map<Word, nat>
    var pairs: map<Gram, nat>

    function Value(): Counts
      reads this
    {
      Counts(total, tokens, contexts, pairs)
    }

    constructor ()
      ensures Value() == EMPTY
    {
      total, tokens, contexts, pairs := 0, map[], map[], map[];
    }

    /** ai_metrics.go, lines 96-99. */
    method Count(previous: Word, token: Word)
      modifies this
      ensures Value() == CountOne(old(Value()), (previous, token))
    {
      total := total + 1;
      tokens := Bump(tokens, token);
      contexts := Bump(contexts, previous);
      pairs := Bump(pairs, (previous, token));
    }

    /** ai_metrics.go, lines 190-201: each map is added key by key, in whatever order the keys come. */
    method Add(counts: Counts)
      modifies this
      ensures Value() == AddCountsTo(old(Value()), counts)
    {
      total := total + counts.total;
      tokens := AddMap(tokens, counts.tokens);
      contexts := AddMap(contexts, counts.contexts);
      pairs := AddMap(pairs, counts.pairs);
    }
  }

  /** The map after some keys of n have been added to m. */
  function AddKeys<K>(m: map<K, nat>, n: map<K, nat>, keys: set<K>): map<K, nat> {
    map key | key in m.Keys + keys :: if key in keys then At(m, key) + At(n, key) else At(m, key)
  }

  lemma AddKeysNext<K>(m: map<K, nat>, n: map<K, nat>, keys: set<K>, key: K)
    requires key in n && key !in keys
    ensures AddKeys(m, n, keys + {key}) == AddKeys(m, n, keys)[key := At(AddKeys(m, n, keys), key) + n[key]]
  {
  }

  lemma AddKeysAll<K>(m: map<K, nat>, n: map<K, nat>)
    ensures AddKeys(m, n, {}) == m && AddKeys(m, n, n.Keys) == AddMaps(m, n)
  {
  }

  method AddMap<K(==)>(m: map<K, nat>, n: map<K, nat>) returns (r: map<K, nat>)
    ensures r == AddMaps(m, n)
  {
    hide AddKeys, AddMaps;
    AddKeysAll(m, n);
    r := m;
    var rest := n.Keys;
    ghost var handled := {};
    while rest != {}
      invariant handled + rest == n.Keys && handled !! rest
      invariant r == AddKeys(m, n, handled)
      decreases |rest|
    {
      var key :| key in rest;
      AddKeysNext(m, n, handled, key);
      r := r[key := At(r, key) + n[key]];
      rest, handled := rest - {key}, handled + {key};
    }
  }

  /** ai_metrics.go, lines 87-104. */
  method CountTokens(source: Source, normalized: bool) returns (r: Counts)
    ensures Represents(r, Grams(Streams(source, normalized)))
  {
    hide Represents;
    var c := new Tally();
    ghost var streams := Streams(source, normalized);
    NothingCounted(c.Value(), streams);
    for i := 0 to |source|
      invariant fresh(c) && Represents(c.Value(), Grams(streams[..i]))
    {
      ghost var before := Grams(streams[..i]);
      assert streams[..i + 1][..i] == streams[..i];
      CountFile(c, source[i], normalized, before);
    }
    assert streams[..|source|] == streams;
    r := c.Value();
  }

  lemma NothingCounted(c: Counts, streams: seq<seq<Word>>)
    requires c == EMPTY
    ensures Represents(c, Grams(streams[..0]))
  {
  }

  lemma NextGram(tokens: seq<MetricToken>, normalized: bool, before: seq<Gram>, k: nat)
    requires k < |tokens|
    ensures var grams := FileGrams(Words(tokens, normalized));
            var x := (if k == 0 then START else WordOf(tokens[k - 1], normalized), WordOf(tokens[k], normalized));
            before + grams[..k] + [x] == before + grams[..k + 1]
  {
  }

  method CountFile(c: Tally, tokens: seq<MetricToken>, normalized: bool, ghost before: seq<Gram>)
    requires Represents(c.Value(), before)
    modifies c
    ensures Represents(c.Value(), before + FileGrams(Words(tokens, normalized)))
  {
    hide Represents, CountOne;
    ghost var grams := FileGrams(Words(tokens, normalized));
    var previous := START;
    assert before + grams[..0] == before;
    for k := 0 to |tokens|
      invariant previous == if k == 0 then START else WordOf(tokens[k - 1], normalized)
      invariant Represents(c.Value(), before + grams[..k])
    {
      var token := WordOf(tokens[k], normalized);
      CountingOneMore(c.Value(), before + grams[..k], (previous, token));
      NextGram(tokens, normalized, before, k);
      c.Count(previous, token);
      previous := token;
    }
    assert grams[..|tokens|] == grams;
  }
}
