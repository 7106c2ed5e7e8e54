/** The byte stream behind a submission's signature. */
module Signature {
  import opened Options
  import opened TokenCounts

  /** "\0file\0" */
  const FILE_MARKER: seq<byte> := [0, 102, 105, 108, 101, 0]

  const COLON: byte := 58

  function Digit(d: nat): (b: byte)
    requires d < 10
    ensures 48 <= b <= 57
  {
    (48 + d) as byte
  }

  /** A length in decimal, without leading zeros. */
  function Decimal(n: nat): (r: seq<byte>)
    ensures |r| > 0 && forall k :: 0 <= k < |r| ==> 48 <= r[k] <= 57
  {
    if n < 10 then [Digit(n)] else Decimal(n / 10) + [Digit(n % 10)]
  }

  function EncodeWord(w: Word): seq<byte> {
    Decimal(|w|) + [COLON] + w
  }

  function EncodeWords(words: seq<Word>): seq<byte> {
    if words == [] then [] else EncodeWord(words[0]) + EncodeWords(words[1..])
  }

  /** What the hash is fed. */
  function Encode(streams: seq<seq<Word>>): seq<byte> {
    if streams == [] then [] else FILE_MARKER + EncodeWords(streams[0]) + Encode(streams[1..])
  }

  // ---------------------------------------------------------------- reading it back

  predicate IsDigit(b: byte) {
    48 <= b <= 57
  }

  /** The number that the leading digits spell, continuing from n, and what follows them. */
  function ReadNumber(s: seq<byte>, n: nat): (r: (nat, seq<byte>))
    ensures |r.1| <= |s|
  {
    if s != [] && IsDigit(s[0]) then ReadNumber(s[1..], n * 10 + (s[0] as nat - 48)) else (n, s)
  }

  /** A token: its length, a colon and as many bytes, whatever they are. */
  function ReadWord(s: seq<byte>): (r: Option<(Word, seq<byte>)>)
    ensures r.Some? ==> |r.value.1| < |s|
  {
    var (n, rest) := ReadNumber(s, 0);
    if rest != [] && rest[0] == COLON && n < |rest| then Some((rest[1..n + 1], rest[n + 1..])) else None
  }

  function ReadWords(s: seq<byte>): (r: Option<(seq<Word>, seq<byte>)>)
    ensures r.Some? ==> |r.value.1| <= |s|
    decreases |s|
  {
    if s == [] || !IsDigit(s[0]) then Some(([], s))
    else
      match ReadWord(s)
      case None => None
      case Some((w, rest)) =>
        match ReadWords(rest)
        case None => None
        case Some((words, end)) => Some(([w] + words, end))
  }

  function Decode(s: seq<byte>): Option<seq<seq<Word>>>
    decreases |s|
  {
    if s == [] then Some([])
    else if FILE_MARKER <= s then
      match ReadWords(s[|FILE_MARKER|..])
      case None => None
      case Some((words, rest)) =>
        match Decode(rest)
        case None => None
        case Some(streams) => Some([words] + streams)
    else None
  }

  // ---------------------------------------------------------------- round trip

  lemma {:induction false} ReadDigits(digits: seq<byte>, tail: seq<byte>, n: nat)
    requires forall k :: 0 <= k < |digits| ==> IsDigit(digits[k])
    requires tail == [] || !IsDigit(tail[0])
    ensures ReadNumber(digits + tail, n).1 == tail
    ensures digits != [] ==>
              ReadNumber(digits + tail, n).0
              == ReadNumber(digits[..|digits| - 1] + [COLON], n).0 * 10 + (digits[|digits| - 1] as nat - 48)
  {
    if digits == [] {
      assert digits + tail == tail;
    } else {
      var m := n * 10 + (digits[0] as nat - 48);
      assert (digits + tail)[1..] == digits[1..] + tail;
      ReadDigits(digits[1..], tail, m);
      var init := digits[..|digits| - 1];
      if |digits| == 1 {
        assert init + [COLON] == [COLON] && digits[1..] + tail == tail;
      } else {
        assert (init + [COLON])[1..] == digits[1..][..|digits| - 2] + [COLON];
      }
    }
  }

  lemma {:induction false} DecimalReadsBack(n: nat, tail: seq<byte>)
    requires tail == [] || !IsDigit(tail[0])
    ensures ReadNumber(Decimal(n) + tail, 0) == (n, tail)
  {
    var digits := Decimal(n);
    ReadDigits(digits, tail, 0);
    var init := digits[..|digits| - 1];
    if n < 10 {
      assert init + [COLON] == [COLON];
    } else {
      assert init == Decimal(n / 10);
      DecimalReadsBack(n / 10, [COLON]);
    }
  }

  lemma WordReadsBack(w: Word, tail: seq<byte>)
    ensures ReadWord(EncodeWord(w) + tail) == Some((w, tail))
  {
    var rest := [COLON] + w + tail;
    assert EncodeWord(w) + tail == Decimal(|w|) + rest;
    DecimalReadsBack(|w|, rest);
    assert rest[1..|w| + 1] == w && rest[|w| + 1..] == tail;
  }

  lemma {:induction false} WordsReadBack(words: seq<Word>, tail: seq<byte>)
    requires tail == [] || !IsDigit(tail[0])
    ensures ReadWords(EncodeWords(words) + tail) == Some((words, tail))
  {
    if words == [] {
      assert EncodeWords(words) + tail == tail;
    } else {
      var next := EncodeWords(words[1..]) + tail;
      assert EncodeWords(words) + tail == EncodeWord(words[0]) + next;
      assert (EncodeWord(words[0]) + next)[0] == Decimal(|words[0]|)[0];
      WordReadsBack(words[0], next);
      WordsReadBack(words[1..], tail);
      assert [words[0]] + words[1..] == words;
    }
  }

  lemma {:induction false} DecodeEncode(streams: seq<seq<Word>>)
    ensures Decode(Encode(streams)) == Some(streams)
  {
    if streams != [] {
      var s, tail := Encode(streams), Encode(streams[1..]);
      assert s == FILE_MARKER + (EncodeWords(streams[0]) + tail);
      assert s[|FILE_MARKER|..] == EncodeWords(streams[0]) + tail;
      assert tail == [] || tail[0] == FILE_MARKER[0];
      WordsReadBack(streams[0], tail);
      DecodeEncode(streams[1..]);
      assert [streams[0]] + streams[1..] == streams;
    }
  }

  /** Equal byte streams come from equal token streams, whatever bytes the tokens hold:
      file markers and lengths inside a token are never taken for structure. */
  lemma EncodeIsInjective(streams: seq<seq<Word>>, others: seq<seq<Word>>)
    requires Encode(streams) == Encode(others)
    ensures streams == others
  {
    DecodeEncode(streams);
    DecodeEncode(others);
  }

  // ---------------------------------------------------------------- the code

  lemma {:induction false} EncodeWordsAppend(words: seq<Word>, w: Word)
    ensures EncodeWords(words + [w]) == EncodeWords(words) + EncodeWord(w)
  {
    if words == [] {
      assert [w][1..] == [];
    } else {
      EncodeWordsAppend(words[1..], w);
      assert (words + [w])[1..] == words[1..] + [w];
    }
  }

  lemma {:induction false} EncodeAppend(streams: seq<seq<Word>>, words: seq<Word>)
    ensures Encode(streams + [words]) == Encode(streams) + FILE_MARKER + EncodeWords(words)
  {
    hide EncodeWords;
    if streams == [] {
      assert [words][1..] == [] && streams + [words] == [words];
      assert Encode([words]) == FILE_MARKER + EncodeWords(words) + Encode([]);
    } else {
      EncodeAppend(streams[1..], words);
      assert (streams + [words])[1..] == streams[1..] + [words];
    }
  }

  /** ai_metrics.go, lines 124-130: the tokens of one file. */
  method WriteTokens(tokens: seq<MetricToken>, normalized: bool, before: seq<byte>) returns (written: seq<byte>)
    ensures written == before + EncodeWords(Words(tokens, normalized))
  {
    ghost var words := Words(tokens, normalized);
    written := before;
    for k := 0 to |tokens|
      invariant written == before + EncodeWords(words[..k])
    {
      var value := WordOf(tokens[k], normalized);
      EncodeWordsAppend(words[..k], value);
      assert words[..k + 1] == words[..k] + [value];
      written := written + (Decimal(|value|) + [COLON] + value);
    }
    assert words[..|tokens|] == words;
  }

  /** ai_metrics.go, lines 120-133: the digest of the stream, written piece by piece. */
  method TokenSignature(source: Source, normalized: bool, sha256: seq<byte> -> nat) returns (digest: nat)
    ensures digest == sha256(Encode(Streams(source, normalized)))
  {
    hide EncodeWords;
    var written: seq<byte> := [];
    ghost var streams := Streams(source, normalized);
    for i := 0 to |source|
      invariant written == Encode(streams[..i])
    {
      EncodeAppend(streams[..i], streams[i]);
      assert streams[..i + 1] == streams[..i] + [streams[i]];
      written := WriteTokens(source[i], normalized, written + FILE_MARKER);
    }
    assert streams[..|source|] == streams;
    digest := sha256(written);
  }
}
