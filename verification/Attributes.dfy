/** Masking unused attributes before parsing.  A character stands for one byte of the file. */
module Attributes {
  import opened Options

  datatype Span = Span(start: nat, end: nat)

  // ---------------------------------------------------------------- the attribute pattern

  /** The regular expression's white space. */
  predicate IsBlank(c: char) {
    c == ' ' || c == '\t' || c == '\n' || c == '\U{0c}' || c == '\r'
  }

  predicate AllBlank(s: string) {
    forall k :: 0 <= k < |s| ==> IsBlank(s[k])
  }

  const PLAIN: seq<string> := ["__attribute__", "(", "(", "unused", ")", ")"]
  const UNDERSCORED: seq<string> := ["__attribute__", "(", "(", "__unused__", ")", ")"]

  /** The words in order, with any white space between two of them. */
  ghost predicate Spelled(text: string, words: seq<string>)
    decreases |words|
  {
    if |words| == 0 then text == ""
    else if |words| == 1 then text == words[0]
    else exists n :: |words[0]| <= n <= |text| && words[0] <= text && AllBlank(text[|words[0]|..n]) && Spelled(text[n..], words[1..])
  }

  ghost predicate IsAttribute(text: string) {
    Spelled(text, PLAIN) || Spelled(text, UNDERSCORED)
  }

  predicate StartsAt(s: string, i: nat, word: string) {
    i + |word| <= |s| && s[i..i + |word|] == word
  }

  function SkipBlanks(s: string, i: nat): (j: nat)
    requires i <= |s|
    ensures i <= j <= |s| && AllBlank(s[i..j]) && (j < |s| ==> !IsBlank(s[j]))
    decreases |s| - i
  {
    if i < |s| && IsBlank(s[i]) then SkipBlanks(s, i + 1) else i
  }

  /** Matching from the left, taking all white space. */
  function MatchWords(s: string, i: nat, words: seq<string>): (r: Option<nat>)
    requires i <= |s|
    ensures r.Some? ==> i + (if |words| > 0 then |words[0]| else 0) <= r.value <= |s|
    decreases |words|
  {
    if |words| == 0 then Some(i)
    else if !StartsAt(s, i, words[0]) then None
    else if |words| == 1 then Some(i + |words[0]|)
    else MatchWords(s, SkipBlanks(s, i + |words[0]|), words[1..])
  }

  function MatchAttribute(s: string, i: nat): (r: Option<nat>)
    requires i <= |s|
    ensures r.Some? ==> i < r.value <= |s|
  {
    var plain := MatchWords(s, i, PLAIN);
    if plain.Some? then plain else MatchWords(s, i, UNDERSCORED)
  }

  /** Words that cannot be confused with the white space before them. */
  predicate Solid(words: seq<string>) {
    forall k :: 0 <= k < |words| ==> words[k] != "" && !IsBlank(words[k][0])
  }

  lemma SliceOfSlice(s: string, i: nat, end: nat, a: nat, b: nat)
    requires i <= end <= |s| && a <= b <= end - i
    ensures s[i..end][a..b] == s[i + a..i + b]
  {
    var one, two := s[i..end][a..b], s[i + a..i + b];
    forall k | 0 <= k < |one| ensures one[k] == two[k] {
      assert one[k] == s[i..end][a + k];
    }
    assert one == two;
  }

  /** A first word, white space, and a spelled rest make a spelled text. */
  lemma SpelledFrom(s: string, i: nat, next: nat, end: nat, words: seq<string>)
    requires |words| > 1 && StartsAt(s, i, words[0]) && i + |words[0]| <= next <= end <= |s|
    requires AllBlank(s[i + |words[0]|..next]) && Spelled(s[next..end], words[1..])
    ensures Spelled(s[i..end], words)
  {
    hide AllBlank;
    var text, first := s[i..end], |words[0]|;
    SliceOfSlice(s, i, end, 0, first);
    SliceOfSlice(s, i, end, first, next - i);
    SliceOfSlice(s, i, end, next - i, end - i);
    assert text[next - i..] == text[next - i..end - i];
    assert text[0..first] == text[..first];
    assert words[0] <= text && AllBlank(text[first..next - i]) && Spelled(text[next - i..], words[1..]);
  }

  lemma {:induction false} MatchIsSpelled(s: string, i: nat, words: seq<string>)
    requires i <= |s| && MatchWords(s, i, words).Some?
    ensures Spelled(s[i..MatchWords(s, i, words).value], words)
    decreases |words|
  {
    hide AllBlank, IsBlank, SkipBlanks;
    var end := MatchWords(s, i, words).value;
    if |words| == 0 {
      assert s[i..end] == "";
    } else if |words| > 1 {
      var next := SkipBlanks(s, i + |words[0]|);
      hide Spelled;
      MatchIsSpelled(s, next, words[1..]);
      SpelledFrom(s, i, next, end, words);
    }
  }

  /** White space that ends before a solid word is skipped exactly. */
  lemma {:induction false} SkipsExactly(s: string, i: nat, j: nat)
    requires i <= j < |s| && AllBlank(s[i..j]) && !IsBlank(s[j])
    ensures SkipBlanks(s, i) == j
    decreases j - i
  {
    if i < j {
      assert s[i] == s[i..j][0];
      assert s[i + 1..j] == s[i..j][1..];
      SkipsExactly(s, i + 1, j);
    }
  }

  lemma SpelledBegins(text: string, words: seq<string>)
    requires |words| > 0 && Solid(words) && Spelled(text, words)
    ensures text != "" && text[0] == words[0][0] && !IsBlank(text[0])
  {
  }

  lemma SolidTail(words: seq<string>)
    requires |words| > 0 && Solid(words)
    ensures Solid(words[1..])
  {
  }

  /** Where the second word of a spelled text begins. */
  lemma SpelledParts(s: string, i: nat, end: nat, words: seq<string>) returns (next: nat)
    requires i <= end <= |s| && |words| > 1 && Spelled(s[i..end], words)
    ensures i + |words[0]| <= next <= end && StartsAt(s, i, words[0]) && AllBlank(s[i + |words[0]|..next]) && Spelled(s[next..end], words[1..])
  {
    var text, first := s[i..end], |words[0]|;
    var n :| first <= n <= |text| && words[0] <= text && AllBlank(text[first..n]) && Spelled(text[n..], words[1..]);
    hide AllBlank, Spelled;
    next := i + n;
    SliceOfSlice(s, i, end, 0, first);
    SliceOfSlice(s, i, end, first, n);
    SliceOfSlice(s, i, end, n, end - i);
    assert text[n..] == text[n..end - i];
    assert text[0..first] == words[0];
  }

  lemma {:induction false} SpelledIsMatched(s: string, i: nat, end: nat, words: seq<string>)
    requires i <= end <= |s| && |words| > 0 && Solid(words) && Spelled(s[i..end], words)
    ensures MatchWords(s, i, words) == Some(end)
    decreases |words|
  {
    if |words| == 1 {
      assert StartsAt(s, i, words[0]);
    } else {
      var next := SpelledParts(s, i, end, words);
      hide Spelled, AllBlank, StartsAt, Solid;
      SolidTail(words);
      SpelledBegins(s[next..end], words[1..]);
      assert s[next] == s[next..end][0];
      SkipsExactly(s, i + |words[0]|, next);
      SpelledIsMatched(s, next, end, words[1..]);
    }
  }

  lemma WordsAreSolid()
    ensures Solid(PLAIN) && Solid(UNDERSCORED)
  {
  }

  /** Two word lists that both match part only where their words do. */
  lemma {:induction false} CommonWords(s: string, i: nat, a: seq<string>, b: seq<string>, n: nat) returns (j: nat)
    requires i <= |s| && n < |a| && n < |b| && a[..n] == b[..n]
    requires MatchWords(s, i, a).Some? && MatchWords(s, i, b).Some?
    ensures StartsAt(s, j, a[n]) && StartsAt(s, j, b[n])
    decreases n
  {
    hide StartsAt, SkipBlanks;
    j := i;
    if n > 0 {
      assert a[0] == a[..n][0] == b[0];
      assert a[1..][..n - 1] == a[..n][1..] == b[1..][..n - 1];
      j := CommonWords(s, SkipBlanks(s, i + |a[0]|), a[1..], b[1..], n - 1);
    }
  }

  lemma DifferInFourthWord(s: string, i: nat, a: seq<string>, b: seq<string>)
    requires i <= |s| && |a| > 3 && |b| > 3 && a[..3] == b[..3] && a[3] == "unused" && b[3] == "__unused__"
    ensures MatchWords(s, i, a).None? || MatchWords(s, i, b).None?
  {
    hide MatchWords, StartsAt;
    if MatchWords(s, i, a).Some? && MatchWords(s, i, b).Some? {
      var j := CommonWords(s, i, a, b, 3);
      Disjoint(s, j);
    }
  }

  /** The two spellings exclude each other. */
  lemma OneSpelling(s: string, i: nat)
    requires i <= |s|
    ensures MatchWords(s, i, PLAIN).None? || MatchWords(s, i, UNDERSCORED).None?
  {
    hide MatchWords, StartsAt;
    assert PLAIN[..3] == ["__attribute__", "(", "("];
    assert UNDERSCORED[..3] == ["__attribute__", "(", "("];
    DifferInFourthWord(s, i, PLAIN, UNDERSCORED);
  }

  lemma Disjoint(s: string, j: nat)
    ensures !(StartsAt(s, j, "unused") && StartsAt(s, j, "__unused__"))
  {
    if StartsAt(s, j, "unused") {
      assert s[j] == s[j..j + 6][0] == 'u';
    }
    if StartsAt(s, j, "__unused__") {
      assert s[j] == s[j..j + 10][0] == '_';
    }
  }

  /** The matcher finds an attribute exactly when there is one, and exactly its extent. */
  lemma MatchFindsAttributes(s: string, i: nat, end: nat)
    requires i <= end <= |s|
    ensures MatchAttribute(s, i) == Some(end) <==> IsAttribute(s[i..end])
  {
    WordsAreSolid();
    OneSpelling(s, i);
    hide MatchWords, Spelled, Solid;
    if MatchWords(s, i, PLAIN).Some? {
      MatchIsSpelled(s, i, PLAIN);
    }
    if MatchWords(s, i, UNDERSCORED).Some? {
      MatchIsSpelled(s, i, UNDERSCORED);
    }
    if Spelled(s[i..end], PLAIN) {
      SpelledIsMatched(s, i, end, PLAIN);
    }
    if Spelled(s[i..end], UNDERSCORED) {
      SpelledIsMatched(s, i, end, UNDERSCORED);
    }
  }

  // ---------------------------------------------------------------- where attributes are looked for

  /** What the next character belongs to.  `lineStart`: nothing but blanks since the line began. */
  datatype Mode = Code(lineStart: bool) | Directive | LineComment | BlockComment(lineStart: bool) | Quoted(quote: char)

  predicate IsIdentifier(c: char) {
    c == '_' || 'a' <= c <= 'z' || 'A' <= c <= 'Z' || '0' <= c <= '9' || c >= '\U{80}'
  }

  predicate Pair(s: string, i: nat, a: char, b: char) {
    i + 1 < |s| && s[i] == a && s[i + 1] == b
  }

  /** An attribute may begin here, and where it ends. */
  function AttributeAt(s: string, i: nat): (r: Option<nat>)
    requires i < |s|
    ensures r.Some? ==> i < r.value <= |s|
  {
    if (i == 0 || !IsIdentifier(s[i - 1])) && s[i] == '_' then MatchAttribute(s, i) else None
  }

  function AtMost(a: nat, b: nat): nat {
    if a <= b then a else b
  }

  /** One character of code: how far to go, and in which mode to go on. */
  function CodeStep(s: string, i: nat, lineStart: bool): (r: (nat, Mode))
    requires i < |s|
    ensures i < r.0 <= |s|
  {
    if s[i] == '\n' then (i + 1, Code(true))
    else if lineStart && (s[i] == ' ' || s[i] == '\t') then (i + 1, Code(true))
    else if lineStart && s[i] == '#' then (i + 1, Directive)
    else if Pair(s, i, '/', '/') then (i + 2, LineComment)
    else if Pair(s, i, '/', '*') then (i + 2, BlockComment(false))
    else if s[i] == '"' || s[i] == '\'' then (i + 1, Quoted(s[i]))
    else (i + 1, Code(false))
  }

  /** One character inside a directive, a comment or a literal. */
  function OtherStep(s: string, i: nat, mode: Mode): (r: (nat, Mode))
    requires 0 < i < |s| && !mode.Code?
    ensures i < r.0 <= |s|
  {
    match mode
    case Directive => (i + 1, if s[i] == '\n' && s[i - 1] != '\\' then Code(true) else Directive)
    case LineComment => (i + 1, if s[i] == '\n' then Code(true) else LineComment)
    case BlockComment(lineStart) =>
      if Pair(s, i, '*', '/') then (i + 2, Code(lineStart)) else (i + 1, BlockComment(lineStart || s[i] == '\n'))
    case Quoted(quote) =>
      if s[i] == '\\' then (AtMost(i + 2, |s|), mode) else (i + 1, if s[i] == quote then Code(false) else mode)
  }

  /** Does code at this position reach the attribute test? */
  predicate Tests(s: string, i: nat, lineStart: bool)
    requires i < |s|
  {
    CodeStep(s, i, lineStart) == (i + 1, Code(false)) && AttributeAt(s, i).Some?
  }

  /** The attributes found from a position on, one character at a time. */
  function Spans(s: string, i: nat, mode: Mode): seq<Span>
    decreases |s| - i
  {
    if i >= |s| then []
    else if mode.Code? then
      if Tests(s, i, mode.lineStart) then
        var end := AttributeAt(s, i).value;
        [Span(i, end)] + Spans(s, end, Code(false))
      else
        var next := CodeStep(s, i, mode.lineStart);
        Spans(s, next.0, next.1)
    else if i == 0 then []
    else
      var next := OtherStep(s, i, mode);
      Spans(s, next.0, next.1)
  }

  /** Spans ascend without overlapping from a position on, and each is one attribute that no identifier runs into. */
  ghost predicate SpansOk(s: string, spans: seq<Span>, from: nat) {
    && (forall k :: 0 <= k < |spans| ==>
          && from <= spans[k].start < spans[k].end <= |s|
          && IsAttribute(s[spans[k].start..spans[k].end])
          && (spans[k].start == 0 || !IsIdentifier(s[spans[k].start - 1])))
    && (forall j, k :: 0 <= j < k < |spans| ==> spans[j].end <= spans[k].start)
  }

  predicate SpanInFile(s: string, span: Span, from: nat) {
    from <= span.start < span.end <= |s| && (span.start == 0 || !IsIdentifier(s[span.start - 1]))
  }

  lemma SpansPrepend(s: string, span: Span, rest: seq<Span>, from: nat)
    requires SpanInFile(s, span, from) && IsAttribute(s[span.start..span.end]) && SpansOk(s, rest, span.end)
    ensures SpansOk(s, [span] + rest, from)
  {
    hide IsAttribute, IsIdentifier;
  }

  lemma SpansWeaken(s: string, spans: seq<Span>, from: nat, before: nat)
    requires before <= from && SpansOk(s, spans, from)
    ensures SpansOk(s, spans, before)
  {
    hide IsAttribute, IsIdentifier;
  }

  lemma {:induction false} SpansAreAttributes(s: string, i: nat, mode: Mode)
    ensures SpansOk(s, Spans(s, i, mode), i)
    decreases |s| - i
  {
    hide CodeStep, OtherStep, MatchAttribute, AttributeAt, IsAttribute, IsIdentifier, Tests, SpansOk;
    if i >= |s| || (i == 0 && !mode.Code?) {
      NoSpans(s, i);
    } else if mode.Code? && Tests(s, i, mode.lineStart) {
      TestsFindsAttribute(s, i, mode.lineStart);
      var end := AttributeAt(s, i).value;
      SpansAreAttributes(s, end, Code(false));
      SpansPrepend(s, Span(i, end), Spans(s, end, Code(false)), i);
      assert Spans(s, i, mode) == [Span(i, end)] + Spans(s, end, Code(false));
    } else {
      var next := if mode.Code? then CodeStep(s, i, mode.lineStart) else OtherStep(s, i, mode);
      SpansAreAttributes(s, next.0, next.1);
      SpansWeaken(s, Spans(s, next.0, next.1), next.0, i);
      assert Spans(s, i, mode) == Spans(s, next.0, next.1);
    }
  }

  lemma NoSpans(s: string, i: nat)
    ensures SpansOk(s, [], i)
  {
  }

  lemma TestsFindsAttribute(s: string, i: nat, lineStart: bool)
    requires i < |s| && Tests(s, i, lineStart)
    ensures AttributeAt(s, i).Some? && IsAttribute(s[i..AttributeAt(s, i).value])
    ensures SpanInFile(s, Span(i, AttributeAt(s, i).value), i)
  {
    hide CodeStep, MatchAttribute, MatchWords, IsAttribute, Spelled, IsIdentifier;
    MatchFindsAttributes(s, i, AttributeAt(s, i).value);
  }

  // ---------------------------------------------------------------- masking

  predicate Covered(spans: seq<Span>, k: nat) {
    exists j :: 0 <= j < |spans| && spans[j].start <= k < spans[j].end
  }

  function Masked(s: string, spans: seq<Span>): (r: string)
    ensures |r| == |s|
  {
    seq(|s|, k requires 0 <= k < |s| => if Covered(spans, k) && s[k] != '\n' then ' ' else s[k])
  }

  /** Masking keeps every byte's place: the length, every newline, and everything outside the attributes stay, and nothing but blanks and
      newlines is left inside them. */
  lemma MaskKeepsPlaces(s: string)
    ensures var spans := Spans(s, 0, Code(true));
            var masked := Masked(s, spans);
            && SpansOk(s, spans, 0)
            && |masked| == |s|
            && (forall k :: 0 <= k < |s| ==> (masked[k] == '\n' <==> s[k] == '\n'))
            && (forall k :: 0 <= k < |s| && !Covered(spans, k) ==> masked[k] == s[k])
            && (forall j, k :: 0 <= j < |spans| && spans[j].start <= k < spans[j].end ==> masked[k] == ' ' || masked[k] == '\n')
  {
    hide Spans, SpansOk;
    SpansAreAttributes(s, 0, Code(true));
    var spans := Spans(s, 0, Code(true));
    forall j, k | 0 <= j < |spans| && spans[j].start <= k < spans[j].end
      ensures k < |s| && (Masked(s, spans)[k] == ' ' || Masked(s, spans)[k] == '\n')
    {
      SpanInside(s, spans, j);
      assert Covered(spans, k);
    }
  }

  lemma SpanInside(s: string, spans: seq<Span>, j: nat)
    requires SpansOk(s, spans, 0) && j < |spans|
    ensures spans[j].end <= |s|
  {
  }

  // ---------------------------------------------------------------- the lexer

  method SkipDirective(content: string, start: nat) returns (i: nat)
    requires start < |content| && content[start] == '#'
    ensures start < i <= |content|
    ensures Spans(content, start + 1, Directive) == Spans(content, i, Code(true))
  {
    hide CodeStep, Tests, AttributeAt, MatchAttribute;
    i := start;
    while i < |content|
      invariant start <= i <= |content|
      invariant i == start || Spans(content, start + 1, Directive) == Spans(content, i, Directive)
      decreases |content| - i
    {
      if content[i] == '\n' && (i == 0 || content[i - 1] != '\\') {
        NewlineStartsLine(content, i);
        break;
      }
      i := i + 1;
    }
  }

  lemma NewlineStartsLine(s: string, i: nat)
    requires i < |s| && s[i] == '\n'
    ensures forall lineStart :: Spans(s, i, Code(lineStart)) == Spans(s, i + 1, Code(true))
  {
  }

  method SkipLineComment(content: string, start: nat) returns (i: nat)
    requires Pair(content, start, '/', '/')
    ensures start < i <= |content|
    ensures Spans(content, start + 2, LineComment) == Spans(content, i, Code(false))
  {
    hide CodeStep, Tests, AttributeAt, MatchAttribute;
    i := start;
    while i < |content| && content[i] != '\n'
      invariant start <= i <= |content|
      invariant start <= i < start + 2 || Spans(content, start + 2, LineComment) == Spans(content, i, LineComment)
    {
      i := i + 1;
    }
    if i < |content| {
      NewlineStartsLine(content, i);
    }
  }

  method SkipBlockComment(content: string, start: nat) returns (i: nat, lineStart: bool)
    requires Pair(content, start, '/', '*')
    ensures start < i <= |content|
    ensures Spans(content, start + 2, BlockComment(false)) == Spans(content, i, Code(lineStart))
  {
    hide CodeStep, Tests, AttributeAt, MatchAttribute;
    lineStart := false;
    i := start + 2;
    while i + 1 < |content| && !(content[i] == '*' && content[i + 1] == '/')
      invariant start + 2 <= i <= |content|
      invariant Spans(content, start + 2, BlockComment(false)) == Spans(content, i, BlockComment(lineStart))
    {
      if content[i] == '\n' {
        lineStart := true;
      }
      i := i + 1;
    }
    i := AtMost(i + 2, |content|);
  }

  method SkipQuoted(content: string, start: nat) returns (i: nat)
    requires start < |content|
    ensures start < i <= |content|
    ensures Spans(content, start + 1, Quoted(content[start])) == Spans(content, i, Code(false))
  {
    hide CodeStep, Tests, AttributeAt, MatchAttribute;
    var quote := content[start];
    i := start + 1;
    while i < |content|
      invariant start < i <= |content|
      invariant Spans(content, start + 1, Quoted(quote)) == Spans(content, i, Quoted(quote))
      decreases |content| - i
    {
      if content[i] == '\\' {
        i := AtMost(i + 2, |content|);
        continue;
      }
      if content[i] == quote {
        i := i + 1;
        return;
      }
      i := i + 1;
    }
  }

  /** ai_attributes.go, lines 74-78: blank one span in place. */
  method Blank(masked: array<char>, start: nat, end: nat)
    requires start <= end <= masked.Length
    modifies masked
    ensures forall k :: 0 <= k < masked.Length ==>
              masked[k] == if start <= k < end && old(masked[k]) != '\n' then ' ' else old(masked[k])
  {
    for j := start to end
      invariant forall k :: 0 <= k < masked.Length ==>
                  masked[k] == if start <= k < j && old(masked[k]) != '\n' then ' ' else old(masked[k])
    {
      if masked[j] != '\n' {
        masked[j] := ' ';
      }
    }
  }

  /** Where the scan goes from a position in code, the attribute aside. */
  method Scan(content: string, start: nat, atLineStart: bool) returns (i: nat, lineStart: bool)
    requires start < |content| && !Tests(content, start, atLineStart)
    ensures start < i <= |content|
    ensures Spans(content, start, Code(atLineStart)) == Spans(content, i, Code(lineStart))
  {
    hide AttributeAt, Tests;
    i, lineStart := start, atLineStart;
    if content[i] == '\n' {
      return i + 1, true;
    }
    if lineStart && (content[i] == ' ' || content[i] == '\t') {
      return i + 1, true;
    }
    if lineStart && content[i] == '#' {
      i := SkipDirective(content, i);
      return;
    }
    lineStart := false;
    if i + 1 < |content| && content[i] == '/' && content[i + 1] == '/' {
      i := SkipLineComment(content, i);
      return;
    }
    if i + 1 < |content| && content[i] == '/' && content[i + 1] == '*' {
      i, lineStart := SkipBlockComment(content, i);
      return;
    }
    if content[i] == '"' || content[i] == '\'' {
      i := SkipQuoted(content, i);
      return;
    }
    return i + 1, false;
  }

  /** ai_attributes.go, lines 13-86. */
  method CompatibleUnusedAttributes(content: string) returns (masked: array<char>, spans: seq<Span>)
    ensures fresh(masked)
    ensures spans == Spans(content, 0, Code(true))
    ensures masked[..] == Masked(content, spans)
  {
    hide CodeStep, OtherStep, AttributeAt;
    masked := new char[|content|](k requires 0 <= k < |content| => content[k]);
    spans := [];
    var lineStart, i := true, 0;
    while i < |content|
      invariant i <= |content|
      invariant spans + Spans(content, i, Code(lineStart)) == Spans(content, 0, Code(true))
      invariant masked.Length == |content|
      invariant forall k :: 0 <= k < |content| ==> masked[k] == if Covered(spans, k) && content[k] != '\n' then ' ' else content[k]
      invariant forall k: nat :: Covered(spans, k) ==> k < i
      decreases |content| - i
    {
      if Tests(content, i, lineStart) {
        var end := AttributeAt(content, i).value;
        ghost var before := spans;
        spans := spans + [Span(i, end)];
        Blank(masked, i, end);
        CoveredAppend(before, Span(i, end));
        lineStart, i := false, end;
      } else {
        i, lineStart := Scan(content, i, lineStart);
      }
    }
  }

  lemma CoveredAppend(spans: seq<Span>, span: Span)
    ensures forall k: nat :: Covered(spans + [span], k) <==> Covered(spans, k) || span.start <= k < span.end
  {
    var all := spans + [span];
    forall k: nat ensures Covered(all, k) <==> Covered(spans, k) || span.start <= k < span.end {
      if Covered(spans, k) {
        var j :| 0 <= j < |spans| && spans[j].start <= k < spans[j].end;
        assert all[j].start <= k < all[j].end;
      }
      if span.start <= k < span.end {
        assert all[|spans|].start <= k < all[|spans|].end;
      }
    }
  }
}
