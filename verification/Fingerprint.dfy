/** Fingerprints: one span per token, separators between functions. */
module Fingerprint {
  import opened Tiling
  import opened TilingFacts
  import opened EqualStreams

  datatype Span = Span(start: nat, end: nat)

  datatype SourceToken = SourceToken(text: string, span: Span)

  /** The value a fingerprint stands for. */
  datatype Print = Print(tokens: seq<Token>, spans: seq<Span>, tokenCount: int) {
    predicate Valid() {
      |spans| == |tokens| && tokenCount == CountTokens(tokens)
    }
  }

  /** A fingerprint as it is passed around: copies of the struct share the token array. */
  datatype FileFingerprint = FileFingerprint(tokens: array<Token>, spans: seq<Span>, tokenCount: int, functionCount: nat) {
    ghost function Value(): Print
      reads tokens
    {
      Print(tokens[..], spans, tokenCount)
    }
  }

  /** The text hash with its lowest bit set, so no text hashes to the separator. */
  function HashToken(hash: string -> nat, text: string): (t: Token)
    ensures t != SEPARATOR
  {
    hash(text) / 2 * 2 + 1
  }

  function HashAll(hash: string -> nat, tokens: seq<SourceToken>): (r: seq<Token>)
    ensures |r| == |tokens|
  {
    seq(|tokens|, k requires 0 <= k < |tokens| => HashToken(hash, tokens[k].text))
  }

  function Spans(tokens: seq<SourceToken>): seq<Span> {
    seq(|tokens|, k requires 0 <= k < |tokens| => tokens[k].span)
  }

  /** The functions long enough to keep. */
  function Kept(funcs: seq<seq<SourceToken>>, minFuncTokens: int): seq<seq<SourceToken>> {
    if funcs == [] then []
    else
      var before, last := Kept(funcs[..|funcs| - 1], minFuncTokens), funcs[|funcs| - 1];
      if |last| < minFuncTokens then before else before + [last]
  }

  /** The kept functions' tokens one after the other, a zero between two of them. */
  function Joined(hash: string -> nat, kept: seq<seq<SourceToken>>): seq<Token> {
    if kept == [] then []
    else Join(Joined(hash, kept[..|kept| - 1]), HashAll(hash, kept[|kept| - 1]))
  }

  lemma {:induction false} CountAppend(s: seq<Token>, t: seq<Token>)
    ensures CountTokens(s + t) == CountTokens(s) + CountTokens(t)
  {
    if t == [] {
      assert s + t == s;
    } else {
      var init := t[..|t| - 1];
      CountAppend(s, init);
      assert Matchable(s + t)[..|s + t| - 1] == Matchable(s + init);
      assert Matchable(t)[..|t| - 1] == Matchable(init);
    }
  }

  lemma {:induction false} AllCounted(t: seq<Token>)
    requires forall k :: 0 <= k < |t| ==> t[k] != SEPARATOR
    ensures CountTokens(t) == |t|
  {
    if t != [] {
      AllCounted(t[..|t| - 1]);
      assert Matchable(t)[..|t| - 1] == Matchable(t[..|t| - 1]);
    }
  }

  lemma SeparatorIsNotCounted(s: seq<Token>)
    ensures CountTokens(s + [SEPARATOR]) == CountTokens(s)
  {
    assert Matchable(s + [SEPARATOR])[..|s|] == Matchable(s);
  }

  /** Texts share a token exactly when their hashes agree but for the lowest bit. */
  lemma TokensTellHashesApart(hash: string -> nat, text: string, other: string)
    ensures HashToken(hash, text) == HashToken(hash, other) <==> hash(text) / 2 == hash(other) / 2
    ensures hash(text) <= HashToken(hash, text) <= hash(text) + 1
  {
  }

  /** Where the f-th kept function begins: behind all before it and a separator, if there is anything before it. */
  function Offset(hash: string -> nat, kept: seq<seq<SourceToken>>, f: nat): nat
    requires f <= |kept|
  {
    var before := |Joined(hash, kept[..f])|;
    if before > 0 then before + 1 else 0
  }

  /** Each kept token stands at its place with its own span. */
  lemma {:induction false} TokensKeepTheirSpans(hash: string -> nat, kept: seq<seq<SourceToken>>, f: nat, k: nat)
    requires f < |kept| && k < |kept[f]|
    ensures |JoinedSpans(kept)| == |Joined(hash, kept)|
    ensures var p := Offset(hash, kept, f) + k;
            p < |Joined(hash, kept)| && Joined(hash, kept)[p] == HashToken(hash, kept[f][k].text) && JoinedSpans(kept)[p] == kept[f][k].span
  {
    hide HashToken, HashAll, Spans, Join, JoinSpans;
    var init, last := kept[..|kept| - 1], kept[|kept| - 1];
    var tokens, spans := Joined(hash, init), JoinedSpans(init);
    JoinedAligned(hash, init);
    HashAllAligned(hash, last);
    if f < |kept| - 1 {
      TokensKeepTheirSpans(hash, init, f, k);
      assert init[..f] == kept[..f];
      JoinKeeps(tokens, HashAll(hash, last), spans, Spans(last), Offset(hash, init, f) + k);
    } else {
      HashAllAt(hash, last, k);
      JoinKeeps(tokens, HashAll(hash, last), spans, Spans(last), 0);
      JoinAdds(tokens, HashAll(hash, last), spans, Spans(last), k);
    }
  }

  lemma JoinKeeps(before: seq<Token>, fn: seq<Token>, spans: seq<Span>, own: seq<Span>, p: nat)
    requires |spans| == |before| && |own| == |fn|
    ensures |JoinSpans(spans, own)| == |Join(before, fn)| >= |before|
    ensures p < |before| ==> Join(before, fn)[p] == before[p] && JoinSpans(spans, own)[p] == spans[p]
  {
  }

  lemma JoinAdds(before: seq<Token>, fn: seq<Token>, spans: seq<Span>, own: seq<Span>, k: nat)
    requires |spans| == |before| && |own| == |fn| && k < |fn|
    ensures var p := (if |before| > 0 then |before| + 1 else 0) + k;
            && p < |Join(before, fn)| && p < |JoinSpans(spans, own)|
            && Join(before, fn)[p] == fn[k] && JoinSpans(spans, own)[p] == own[k]
  {
  }

  lemma HashAllAligned(hash: string -> nat, fn: seq<SourceToken>)
    ensures |HashAll(hash, fn)| == |Spans(fn)|
  {
  }

  lemma HashAllAt(hash: string -> nat, fn: seq<SourceToken>, k: nat)
    requires k < |fn|
    ensures HashAll(hash, fn)[k] == HashToken(hash, fn[k].text) && |Spans(fn)| == |fn| && Spans(fn)[k] == fn[k].span
  {
  }

  lemma {:induction false} JoinedAligned(hash: string -> nat, kept: seq<seq<SourceToken>>)
    ensures |JoinedSpans(kept)| == |Joined(hash, kept)|
  {
    if kept != [] {
      JoinedAligned(hash, kept[..|kept| - 1]);
    }
  }

  /** One kept function joined to a fingerprint, behind a separator unless it is the first. */
  function Join(before: seq<Token>, fn: seq<Token>): seq<Token> {
    (if |before| > 0 then before + [SEPARATOR] else before) + fn
  }

  function JoinSpans(before: seq<Span>, fn: seq<Span>): seq<Span> {
    (if |before| > 0 then before + [Span(0, 0)] else before) + fn
  }

  /** The span of every token, an empty span for every separator. */
  function JoinedSpans(kept: seq<seq<SourceToken>>): seq<Span> {
    if kept == [] then [] else JoinSpans(JoinedSpans(kept[..|kept| - 1]), Spans(kept[|kept| - 1]))
  }

  lemma JoinCounts(before: seq<Token>, fn: seq<Token>)
    requires forall k :: 0 <= k < |fn| ==> fn[k] != SEPARATOR
    ensures CountTokens(Join(before, fn)) == CountTokens(before) + |fn|
  {
    SeparatorIsNotCounted(before);
    CountAppend(if |before| > 0 then before + [SEPARATOR] else before, fn);
    AllCounted(fn);
  }

  /** fingerprint.go, lines 54-61: append one function's tokens and spans. */
  method AppendFunction(hash: string -> nat, fn: seq<SourceToken>, tokens: seq<Token>, spans: seq<Span>)
    returns (newTokens: seq<Token>, newSpans: seq<Span>)
    requires |spans| == |tokens|
    ensures newTokens == Join(tokens, HashAll(hash, fn)) && newSpans == JoinSpans(spans, Spans(fn))
  {
    newTokens, newSpans := tokens, spans;
    if |tokens| > 0 {
      newTokens := newTokens + [SEPARATOR];
      newSpans := newSpans + [Span(0, 0)];
    }
    ghost var before, spansBefore := newTokens, newSpans;
    for k := 0 to |fn|
      invariant newTokens == before + HashAll(hash, fn)[..k]
      invariant newSpans == spansBefore + Spans(fn)[..k]
    {
      newTokens := newTokens + [HashToken(hash, fn[k].text)];
      newSpans := newSpans + [fn[k].span];
    }
    assert HashAll(hash, fn)[..|fn|] == HashAll(hash, fn) && Spans(fn)[..|fn|] == Spans(fn);
  }

  /** Building a fingerprint from the functions found in a file. */
  method Assemble(hash: string -> nat, funcs: seq<seq<SourceToken>>, minFuncTokens: int) returns (fp: FileFingerprint)
    ensures fresh(fp.tokens) && fp.Value().Valid()
    ensures fp.tokens[..] == Joined(hash, Kept(funcs, minFuncTokens))
    ensures fp.spans == JoinedSpans(Kept(funcs, minFuncTokens))
    ensures fp.functionCount == |Kept(funcs, minFuncTokens)|
  {
    var tokens: seq<Token>, spans: seq<Span>, tokenCount, functionCount := [], [], 0, 0;
    for n := 0 to |funcs|
      invariant tokens == Joined(hash, Kept(funcs[..n], minFuncTokens))
      invariant functionCount == |Kept(funcs[..n], minFuncTokens)|
      invariant spans == JoinedSpans(Kept(funcs[..n], minFuncTokens))
      invariant |spans| == |tokens| && tokenCount == CountTokens(tokens)
    {
      assert funcs[..n + 1][..n] == funcs[..n];
      var fn := funcs[n];
      if |fn| >= minFuncTokens {
        functionCount := functionCount + 1;
        tokenCount := tokenCount + |fn|;
        JoinCounts(tokens, HashAll(hash, fn));
        tokens, spans := AppendFunction(hash, fn, tokens, spans);
      }
    }
    assert funcs[..|funcs|] == funcs;
    var stored := new Token[|tokens|](i requires 0 <= i < |tokens| => tokens[i]);
    assert stored[..] == tokens;
    fp := FileFingerprint(stored, spans, tokenCount, functionCount);
  }

  // ---------------------------------------------------------------- segments are functions

  predicate AllReach(kept: seq<seq<SourceToken>>, n: nat) {
    forall k :: 0 <= k < |kept| ==> |kept[k]| >= n
  }

  lemma {:induction false} KeptReach(funcs: seq<seq<SourceToken>>, minFuncTokens: int, n: nat)
    requires minFuncTokens >= n
    ensures AllReach(Kept(funcs, minFuncTokens), n)
  {
    if funcs != [] {
      KeptReach(funcs[..|funcs| - 1], minFuncTokens, n);
    }
  }

  lemma SegmentOfJoin(before: seq<Token>, fn: seq<Token>, start: nat, length: nat)
    requires forall k :: 0 <= k < |fn| ==> fn[k] != SEPARATOR
    requires IsSegment(before + [SEPARATOR] + fn, start, length)
    ensures IsSegment(before, start, length) || length == |fn|
  {
    var all := before + [SEPARATOR] + fn;
    assert all[|before|] == SEPARATOR;
    if start < |before| {
      assert start + length <= |before|;
      assert forall k :: 0 <= k < |before| ==> all[k] == before[k];
    } else {
      assert forall k :: |before| < k < |all| ==> all[k] == fn[k - |before| - 1];
      assert all[start] != SEPARATOR && all[start - 1] == SEPARATOR;
    }
  }

  lemma {:induction false} SegmentsAreFunctions(hash: string -> nat, kept: seq<seq<SourceToken>>, n: nat)
    requires AllReach(kept, n)
    ensures AllSegmentsReach(Joined(hash, kept), n)
  {
    if kept != [] {
      var init, last := kept[..|kept| - 1], HashAll(hash, kept[|kept| - 1]);
      var before := Joined(hash, init);
      SegmentsAreFunctions(hash, init, n);
      forall start: nat, length: nat | IsSegment(Joined(hash, kept), start, length) ensures length >= n {
        if |before| > 0 {
          SegmentOfJoin(before, last, start, length);
        } else {
          assert Joined(hash, kept) == last;
          assert forall k :: 0 <= k < |last| ==> last[k] != SEPARATOR;
        }
      }
    }
  }

  /** When the function minimum is at least the match minimum, every segment of a fingerprint can be matched. */
  lemma FingerprintSegmentsReach(hash: string -> nat, funcs: seq<seq<SourceToken>>, minFuncTokens: int, minMatch: int)
    requires minFuncTokens >= AtLeastOne(minMatch)
    ensures AllSegmentsReach(Joined(hash, Kept(funcs, minFuncTokens)), AtLeastOne(minMatch))
  {
    KeptReach(funcs, minFuncTokens, AtLeastOne(minMatch));
    SegmentsAreFunctions(hash, Kept(funcs, minFuncTokens), AtLeastOne(minMatch));
  }
}
