/** The lexical pieces of a C text, and that exactly its attributes in code are masked. */
module LexicalPieces {
  import opened Attributes

  datatype Kind = AttributeText | DirectiveText | LineCommentText | BlockCommentText | LiteralText | PlainText

  datatype Piece = Piece(kind: Kind, start: nat, end: nat)

  // ---------------------------------------------------------------- pieces, stated by their extent

  ghost predicate BeginsAttribute(s: string, i: nat) {
    i < |s| && (i == 0 || !IsIdentifier(s[i - 1])) && exists j :: i < j <= |s| && IsAttribute(s[i..j])
  }

  /** A newline that no backslash continues. */
  predicate EndsLine(s: string, k: nat) {
    0 < k < |s| && s[k] == '\n' && s[k - 1] != '\\'
  }

  /** How many backslashes stand directly before k, looking back no further than `from`. */
  function Backslashes(s: string, from: nat, k: nat): nat
    requires k <= |s|
  {
    if k <= from || s[k - 1] != '\\' then 0 else 1 + Backslashes(s, from, k - 1)
  }

  /** The quote that opened at i, after an even number of backslashes. */
  predicate Closes(s: string, i: nat, k: nat) {
    i < k < |s| && s[k] == s[i] && Backslashes(s, i + 1, k) % 2 == 0
  }

  function LineEnds(s: string): nat -> bool {
    (k: nat) => EndsLine(s, k)
  }

  function Closers(s: string, i: nat): nat -> bool {
    (k: nat) => Closes(s, i, k)
  }

  function Newlines(s: string): nat -> bool {
    (k: nat) => k < |s| && s[k] == '\n'
  }

  function CommentEnds(s: string): nat -> bool {
    (k: nat) => Pair(s, k, '*', '/')
  }

  predicate IsQuote(c: char) {
    c == '"' || c == '\''
  }

  /** A piece of this kind extends exactly from its start to its end; `lineStart` says whether only blanks came before it on its line. */
  ghost predicate IsPiece(s: string, p: Piece, lineStart: bool) {
    && p.start < p.end <= |s|
    && match p.kind
       case AttributeText => IsAttribute(s[p.start..p.end]) && (p.start == 0 || !IsIdentifier(s[p.start - 1]))
       case DirectiveText => lineStart && s[p.start] == '#' && Until(s, p, LineEnds(s))
       case LiteralText => IsQuote(s[p.start]) && Until(s, p, Closers(s, p.start))
       case LineCommentText => Pair(s, p.start, '/', '/') && (forall k :: p.start <= k < p.end ==> s[k] != '\n') && (p.end == |s| || s[p.end] == '\n')
       case BlockCommentText => Pair(s, p.start, '/', '*') && p.start + 2 <= p.end && ClosesComment(s, p)
       case PlainText => p.end == p.start + 1 && IsPlain(s, p.start, lineStart)
  }

  /** Up to and including the first such place after the start, or to the end of the text. */
  ghost predicate Until(s: string, p: Piece, last: nat -> bool) {
    && (forall k: nat :: p.start < k < p.end - 1 ==> !last(k))
    && (p.end == |s| || (p.end - 1 > p.start && last(p.end - 1)))
  }

  /** Up to the first closing pair after the opening one, or to the end of the text. */
  predicate ClosesComment(s: string, p: Piece) {
    && (forall k :: p.start + 2 <= k < p.end - 2 ==> !Pair(s, k, '*', '/'))
    && ((p.start + 4 <= p.end && Pair(s, p.end - 2, '*', '/')) || (p.end == |s| && forall k :: p.start + 2 <= k < p.end ==> !Pair(s, k, '*', '/')))
  }

  /** Nothing else begins here. */
  ghost predicate IsPlain(s: string, i: nat, lineStart: bool) {
    && i < |s| && !BeginsAttribute(s, i) && !(lineStart && s[i] == '#') && !IsQuote(s[i])
    && !Pair(s, i, '/', '/') && !Pair(s, i, '/', '*')
  }

  predicate HasNewline(s: string, from: nat, to: nat) {
    exists k :: from <= k < to && k < |s| && s[k] == '\n'
  }

  /** Whether only blanks have come on the line after this piece, as far as the lexer tells. */
  predicate LineStartAfter(s: string, p: Piece, lineStart: bool) {
    match p.kind
    case DirectiveText => true
    case BlockCommentText => HasNewline(s, p.start, p.end)
    case PlainText => p.start < |s| && (s[p.start] == '\n' || (lineStart && (s[p.start] == ' ' || s[p.start] == '\t')))
    case _ => false
  }

  /** The pieces follow each other to the end of the text. */
  ghost predicate Lexed(s: string, pieces: seq<Piece>, from: nat, lineStart: bool)
    decreases |pieces|
  {
    if pieces == [] then from == |s|
    else pieces[0].start == from && IsPiece(s, pieces[0], lineStart) && Lexed(s, pieces[1..], pieces[0].end, LineStartAfter(s, pieces[0], lineStart))
  }

  function AttributeSpans(pieces: seq<Piece>): seq<Span> {
    if pieces == [] then []
    else (if pieces[0].kind == AttributeText then [Span(pieces[0].start, pieces[0].end)] else []) + AttributeSpans(pieces[1..])
  }

  // ---------------------------------------------------------------- the lexer goes piece by piece

  lemma {:induction false} DirectiveRuns(s: string, p: Piece, m: nat)
    requires p.start < m <= p.end <= |s| && Until(s, p, LineEnds(s)) && (p.end < |s| ==> m < p.end)
    ensures Spans(s, m, Mode.Directive) == Spans(s, p.end, Code(true))
    decreases p.end - m
  {
    hide CodeStep, Tests, AttributeAt;
    if m < p.end {
      if m < p.end - 1 {
        assert !LineEnds(s)(m);
        DirectiveRuns(s, p, m + 1);
      } else {
        assert p.end < |s| ==> EndsLine(s, m);
      }
    }
  }

  lemma {:induction false} LineCommentRuns(s: string, p: Piece, m: nat)
    requires p.start < m <= p.end <= |s| && (forall k :: p.start <= k < p.end ==> s[k] != '\n') && (p.end == |s| || s[p.end] == '\n')
    ensures Spans(s, m, Mode.LineComment) == Spans(s, p.end, Code(false))
    decreases p.end - m
  {
    hide CodeStep, Tests, AttributeAt;
    if m < p.end {
      LineCommentRuns(s, p, m + 1);
    } else if m < |s| {
      NewlineStartsLine(s, m);
    }
  }

  lemma {:induction false} BlockCommentRuns(s: string, p: Piece, m: nat)
    requires p.start + 2 <= m <= p.end <= |s| && ClosesComment(s, p) && (Pair(s, p.end - 2, '*', '/') && p.start + 4 <= p.end ==> m <= p.end - 2)
    ensures Spans(s, m, Mode.BlockComment(HasNewline(s, p.start, m))) == Spans(s, p.end, Code(HasNewline(s, p.start, p.end)))
    decreases p.end - m
  {
    hide CodeStep, Tests, AttributeAt;
    if m < |s| {
      if Pair(s, m, '*', '/') {
        assert m == p.end - 2;
        assert HasNewline(s, p.start, m) == HasNewline(s, p.start, p.end);
      } else {
        assert HasNewline(s, p.start, m + 1) == (HasNewline(s, p.start, m) || s[m] == '\n');
        BlockCommentRuns(s, p, m + 1);
      }
    }
  }

  lemma {:induction false} LiteralRuns(s: string, p: Piece, m: nat)
    requires p.start < m <= p.end <= |s| && IsQuote(s[p.start]) && Until(s, p, Closers(s, p.start)) && (p.end < |s| ==> m < p.end)
    requires Backslashes(s, p.start + 1, m) % 2 == 0
    ensures Spans(s, m, Quoted(s[p.start])) == Spans(s, p.end, Code(false))
    decreases p.end - m
  {
    hide CodeStep, Tests, AttributeAt;
    if m < |s| {
      assert m < p.end - 1 ==> !Closers(s, p.start)(m);
      assert m + 1 < p.end - 1 ==> !Closers(s, p.start)(m + 1);
      assert p.end < |s| ==> Closes(s, p.start, p.end - 1);
      if s[m] == '\\' {
        assert Backslashes(s, p.start + 1, m + 1) == Backslashes(s, p.start + 1, m) + 1;
        var next := AtMost(m + 2, |s|);
        if next == m + 2 {
          LiteralRuns(s, p, next);
        }
      } else if s[m] != s[p.start] {
        LiteralRuns(s, p, m + 1);
      }
    }
  }

  lemma PlainStep(s: string, i: nat, lineStart: bool)
    requires IsPlain(s, i, lineStart)
    ensures Spans(s, i, Code(lineStart)) == Spans(s, i + 1, Code(LineStartAfter(s, Piece(PlainText, i, i + 1), lineStart)))
  {
    if Tests(s, i, lineStart) {
      TestsFindsAttribute(s, i, lineStart);
    }
  }

  lemma AttributeBegins(text: string)
    requires IsAttribute(text)
    ensures text != "" && text[0] == '_'
  {
    WordsAreSolid();
    hide Spelled, Solid;
    if Spelled(text, PLAIN) {
      SpelledBegins(text, PLAIN);
    } else {
      SpelledBegins(text, UNDERSCORED);
    }
  }

  lemma AttributeStep(s: string, p: Piece, lineStart: bool)
    requires IsPiece(s, p, lineStart) && p.kind == AttributeText
    ensures Spans(s, p.start, Code(lineStart)) == [Span(p.start, p.end)] + Spans(s, p.end, Code(false))
  {
    hide MatchAttribute, IsAttribute;
    AttributeBegins(s[p.start..p.end]);
    assert s[p.start] == s[p.start..p.end][0];
    MatchFindsAttributes(s, p.start, p.end);
  }

  /** One piece on: its span if it is an attribute, and then the rest in code. */
  lemma PieceStep(s: string, p: Piece, lineStart: bool)
    requires IsPiece(s, p, lineStart)
    ensures Spans(s, p.start, Code(lineStart)) ==
            (if p.kind == AttributeText then [Span(p.start, p.end)] else []) + Spans(s, p.end, Code(LineStartAfter(s, p, lineStart)))
  {
    hide AttributeAt, IsAttribute, Until, ClosesComment;
    match p.kind {
      case AttributeText => AttributeStep(s, p, lineStart);
      case PlainText => PlainStep(s, p.start, lineStart);
      case DirectiveText =>
        DirectiveMoves(s, p);
        DirectiveRuns(s, p, p.start + 1);
      case LineCommentText => LineCommentRuns(s, p, p.start + 2);
      case BlockCommentText =>
        assert !HasNewline(s, p.start, p.start + 2);
        BlockCommentRuns(s, p, p.start + 2);
      case LiteralText =>
        LiteralMoves(s, p);
        LiteralRuns(s, p, p.start + 1);
    }
  }

  lemma DirectiveMoves(s: string, p: Piece)
    requires p.start < p.end <= |s| && Until(s, p, LineEnds(s))
    ensures p.end < |s| ==> p.start + 1 < p.end
  {
  }

  lemma LiteralMoves(s: string, p: Piece)
    requires p.start < p.end <= |s| && Until(s, p, Closers(s, p.start))
    ensures p.end < |s| ==> p.start + 1 < p.end
  {
  }

  /** However a text is cut into pieces, the lexer's spans are its attribute pieces. */
  lemma {:induction false} LexerFindsThePieces(s: string, pieces: seq<Piece>, from: nat, lineStart: bool)
    requires Lexed(s, pieces, from, lineStart)
    ensures Spans(s, from, Code(lineStart)) == AttributeSpans(pieces)
    decreases |pieces|
  {
    hide IsPiece, LineStartAfter;
    if pieces != [] {
      PieceStep(s, pieces[0], lineStart);
      LexerFindsThePieces(s, pieces[1..], pieces[0].end, LineStartAfter(s, pieces[0], lineStart));
    }
  }

  // ---------------------------------------------------------------- every text has its pieces

  ghost function FirstFrom(m: nat, n: nat, p: nat -> bool): (k: nat)
    requires m <= n
    ensures m <= k <= n && (forall i: nat :: m <= i < k ==> !p(i)) && (k < n ==> p(k))
    decreases n - m
  {
    if m == n || p(m) then m else FirstFrom(m + 1, n, p)
  }

  function PastTo(k: nat, n: nat): nat {
    if k < n then k + 1 else n
  }

  lemma PieceUntil(s: string, i: nat, last: nat -> bool) returns (end: nat)
    requires i < |s|
    ensures i < end <= |s|
    ensures forall kind :: Until(s, Piece(kind, i, end), last)
  {
    end := PastTo(FirstFrom(i + 1, |s|, last), |s|);
  }

  lemma LineCommentEnds(s: string, i: nat) returns (end: nat)
    requires Pair(s, i, '/', '/')
    ensures i < end <= |s| && (forall k :: i <= k < end ==> s[k] != '\n') && (end == |s| || s[end] == '\n')
  {
    end := FirstFrom(i, |s|, Newlines(s));
    forall k: nat | i <= k < end ensures s[k] != '\n' {
      assert !Newlines(s)(k);
    }
    assert end < |s| ==> Newlines(s)(end);
  }

  lemma BlockCommentEnds(s: string, i: nat) returns (end: nat)
    requires Pair(s, i, '/', '*')
    ensures i + 2 <= end <= |s| && ClosesComment(s, Piece(BlockCommentText, i, end))
  {
    var first := FirstFrom(i + 2, |s|, CommentEnds(s));
    forall k: nat | i + 2 <= k < first ensures !Pair(s, k, '*', '/') {
      assert !CommentEnds(s)(k);
    }
    assert first < |s| ==> CommentEnds(s)(first);
    end := if first < |s| then first + 2 else |s|;
  }

  lemma SomePiece(s: string, i: nat, lineStart: bool) returns (p: Piece)
    requires i < |s|
    ensures p.start == i && IsPiece(s, p, lineStart)
  {
    hide IsAttribute, Until, ClosesComment;
    var end: nat;
    if BeginsAttribute(s, i) {
      end :| i < end <= |s| && IsAttribute(s[i..end]);
      p := Piece(AttributeText, i, end);
    } else if lineStart && s[i] == '#' {
      end := PieceUntil(s, i, LineEnds(s));
      p := Piece(DirectiveText, i, end);
    } else if IsQuote(s[i]) {
      end := PieceUntil(s, i, Closers(s, i));
      p := Piece(LiteralText, i, end);
    } else if Pair(s, i, '/', '/') {
      end := LineCommentEnds(s, i);
      p := Piece(LineCommentText, i, end);
    } else if Pair(s, i, '/', '*') {
      end := BlockCommentEnds(s, i);
      p := Piece(BlockCommentText, i, end);
    } else {
      p := Piece(PlainText, i, i + 1);
    }
  }

  lemma {:induction false} EveryTextHasPieces(s: string, from: nat, lineStart: bool) returns (pieces: seq<Piece>)
    requires from <= |s|
    ensures Lexed(s, pieces, from, lineStart)
    decreases |s| - from
  {
    if from == |s| {
      pieces := [];
    } else {
      var p := SomePiece(s, from, lineStart);
      assert p.end > from && p.end <= |s|;
      hide IsPiece, LineStartAfter;
      var rest := EveryTextHasPieces(s, p.end, LineStartAfter(s, p, lineStart));
      pieces := [p] + rest;
      assert pieces[1..] == rest;
    }
  }

  // ---------------------------------------------------------------- what is masked

  lemma {:induction false} PiecesFollow(s: string, pieces: seq<Piece>, from: nat, lineStart: bool)
    requires Lexed(s, pieces, from, lineStart)
    ensures forall k :: 0 <= k < |pieces| ==> from <= pieces[k].start < pieces[k].end <= |s|
    ensures forall j, k :: 0 <= j < k < |pieces| ==> pieces[j].end <= pieces[k].start
    decreases |pieces|
  {
    hide LineStartAfter, Until, ClosesComment, IsAttribute, IsPlain;
    if pieces != [] {
      var rest := pieces[1..];
      PiecesFollow(s, rest, pieces[0].end, LineStartAfter(s, pieces[0], lineStart));
      assert forall k :: 0 < k < |pieces| ==> pieces[k] == rest[k - 1];
    }
  }

  lemma {:induction false} CoveredByAttributes(pieces: seq<Piece>, k: nat)
    ensures Covered(AttributeSpans(pieces), k) <==> exists j :: 0 <= j < |pieces| && pieces[j].kind == AttributeText && pieces[j].start <= k < pieces[j].end
  {
    if pieces != [] {
      var first, rest := pieces[0], AttributeSpans(pieces[1..]);
      CoveredByAttributes(pieces[1..], k);
      forall j | 0 < j < |pieces| ensures pieces[j] == pieces[1..][j - 1] {
      }
      if first.kind == AttributeText {
        CoveredPrepend(Span(first.start, first.end), rest, k);
      } else {
        assert AttributeSpans(pieces) == rest;
      }
      SomeInTail(pieces, k);
    }
  }

  lemma SomeInTail(pieces: seq<Piece>, k: nat)
    requires pieces != []
    ensures (exists j :: 0 <= j < |pieces| && pieces[j].kind == AttributeText && pieces[j].start <= k < pieces[j].end) <==>
            (pieces[0].kind == AttributeText && pieces[0].start <= k < pieces[0].end)
            || exists j :: 0 <= j < |pieces[1..]| && pieces[1..][j].kind == AttributeText && pieces[1..][j].start <= k < pieces[1..][j].end
  {
    var rest := pieces[1..];
    if j :| 0 <= j < |rest| && rest[j].kind == AttributeText && rest[j].start <= k < rest[j].end {
      assert pieces[j + 1] == rest[j];
    }
    if j :| 0 <= j < |pieces| && pieces[j].kind == AttributeText && pieces[j].start <= k < pieces[j].end {
      assert j > 0 ==> rest[j - 1] == pieces[j];
    }
  }

  lemma CoveredPrepend(span: Span, spans: seq<Span>, k: nat)
    ensures Covered([span] + spans, k) <==> span.start <= k < span.end || Covered(spans, k)
  {
    var all := [span] + spans;
    if span.start <= k < span.end {
      assert all[0].start <= k < all[0].end;
    }
    if Covered(spans, k) {
      var j :| 0 <= j < |spans| && spans[j].start <= k < spans[j].end;
      assert all[j + 1].start <= k < all[j + 1].end;
    }
    if Covered(all, k) {
      var j :| 0 <= j < |all| && all[j].start <= k < all[j].end;
      assert j > 0 ==> spans[j - 1] == all[j];
    }
  }

  /** Every attribute in code is masked, and nothing else is: a text falls into attributes, directives, comments, literals and plain characters; the
      attributes turn into blanks and newlines, everything inside a directive, a comment or a literal stays, attributes included, and no attribute
      begins at a plain character of code unless an identifier runs into it. */
  lemma ExactlyAttributesInCodeAreMasked(s: string, pieces: seq<Piece>, j: nat, k: nat)
    requires Lexed(s, pieces, 0, true) && j < |pieces| && pieces[j].start <= k < pieces[j].end
    ensures k < |s|
    ensures var masked := Masked(s, Spans(s, 0, Code(true)));
            if pieces[j].kind == AttributeText then masked[k] == if s[k] == '\n' then '\n' else ' '
            else masked[k] == s[k]
    ensures pieces[j].kind == PlainText ==> k == pieces[j].start && !BeginsAttribute(s, k)
  {
    PiecesFollow(s, pieces, 0, true);
    LexerFindsThePieces(s, pieces, 0, true);
    CoveredByAttributes(pieces, k);
    PieceAt(s, pieces, 0, true, j);
    hide IsPiece, Spans, AttributeSpans, Covered, Lexed;
    forall i | 0 <= i < |pieces| && pieces[i].start <= k < pieces[i].end ensures i == j {
      OnePiece(pieces, i, j, k);
    }
  }

  lemma OnePiece(pieces: seq<Piece>, i: nat, j: nat, k: nat)
    requires forall i, j :: 0 <= i < j < |pieces| ==> pieces[i].end <= pieces[j].start
    requires i < |pieces| && j < |pieces| && pieces[i].start <= k < pieces[i].end && pieces[j].start <= k < pieces[j].end
    ensures i == j
  {
  }

  lemma {:induction false} PieceAt(s: string, pieces: seq<Piece>, from: nat, lineStart: bool, j: nat)
    requires Lexed(s, pieces, from, lineStart) && j < |pieces|
    ensures pieces[j].kind == PlainText ==> pieces[j].end == pieces[j].start + 1 && !BeginsAttribute(s, pieces[j].start)
    decreases |pieces|
  {
    hide BeginsAttribute, LineStartAfter, Until, ClosesComment, IsAttribute;
    if j > 0 {
      PieceAt(s, pieces[1..], pieces[0].end, LineStartAfter(s, pieces[0], lineStart), j - 1);
    }
  }
}
