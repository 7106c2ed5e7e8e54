/** Lines and columns of byte positions. */
module LineOffsets {
  import opened Attributes

  /** Where each line begins: 0, and one past every newline. */
  function Offsets(s: string): (r: seq<nat>)
    ensures |r| > 0 && r[0] == 0
  {
    if s == "" then [0]
    else
      var before := Offsets(s[..|s| - 1]);
      if s[|s| - 1] == '\n' then before + [|s|] else before
  }

  method BuildLineOffsets(content: string) returns (offsets: seq<nat>)
    ensures offsets == Offsets(content)
  {
    offsets := [0];
    for i := 0 to |content|
      invariant offsets == Offsets(content[..i])
    {
      assert content[..i + 1][..i] == content[..i];
      if content[i] == '\n' {
        offsets := offsets + [i + 1];
      }
    }
    assert content[..|content|] == content;
  }

  predicate Ascending(offsets: seq<nat>) {
    forall j, k :: 0 <= j < k < |offsets| ==> offsets[j] < offsets[k]
  }

  lemma {:induction false} OffsetsAscend(s: string)
    ensures Ascending(Offsets(s)) && Offsets(s)[|Offsets(s)| - 1] <= |s|
    ensures forall p: nat :: p in Offsets(s) <==> p == 0 || (p <= |s| && s[p - 1] == '\n')
  {
    if s != "" {
      OffsetsAscend(s[..|s| - 1]);
    }
  }

  /** The binary search of the sort package: the first index whose offset lies beyond the position. */
  method FirstBeyond(offsets: seq<nat>, pos: int) returns (i: int)
    requires Ascending(offsets)
    ensures 0 <= i <= |offsets|
    ensures forall k :: 0 <= k < i ==> offsets[k] <= pos
    ensures forall k :: i <= k < |offsets| ==> offsets[k] > pos
  {
    var j := |offsets|;
    i := 0;
    while i < j
      invariant 0 <= i <= j <= |offsets|
      invariant forall k :: 0 <= k < i ==> offsets[k] <= pos
      invariant forall k :: j <= k < |offsets| ==> offsets[k] > pos
    {
      var h := (i + j) / 2;
      if offsets[h] <= pos {
        i := h + 1;
      } else {
        j := h;
      }
    }
  }

  /** Line and column of a position, both counted from one. */
  method ByteToLineCol(offsets: seq<nat>, pos: int) returns (line: int, col: int)
    requires Ascending(offsets) && |offsets| > 0 && offsets[0] == 0
    ensures 1 <= line <= |offsets| && col - 1 == pos - offsets[line - 1]
    ensures pos >= 0 ==> col >= 1 && (line < |offsets| ==> pos < offsets[line])
    ensures pos < 0 ==> line == 1
  {
    var beyond := FirstBeyond(offsets, pos);
    line := beyond as int - 1;
    if line < 0 {
      line := 0;
    }
    var begin: int := offsets[line];
    col := pos - begin;
    return line + 1, col + 1;
  }

  function Newlines(s: string): nat {
    if s == "" then 0 else Newlines(s[..|s| - 1]) + if s[|s| - 1] == '\n' then 1 else 0
  }

  /** What `ByteToLineCol` promises of its result. */
  predicate Locates(offsets: seq<nat>, pos: nat, line: int, col: int) {
    && 1 <= line <= |offsets| && col - 1 == pos - offsets[line - 1] && col >= 1
    && (line < |offsets| ==> pos < offsets[line])
  }

  lemma {:induction false} OffsetsOfPrefix(s: string, n: nat)
    requires n <= |s|
    ensures Offsets(s[..n]) <= Offsets(s)
    ensures forall k :: |Offsets(s[..n])| <= k < |Offsets(s)| ==> Offsets(s)[k] > n
    decreases |s|
  {
    if n == |s| {
      assert s[..n] == s;
    } else {
      assert s[..|s| - 1][..n] == s[..n];
      OffsetsOfPrefix(s[..|s| - 1], n);
    }
  }

  lemma {:induction false} OffsetsCountNewlines(s: string)
    ensures |Offsets(s)| == Newlines(s) + 1
  {
    if s != "" {
      OffsetsCountNewlines(s[..|s| - 1]);
    }
  }

  /** At most one line holds a position. */
  lemma OnlyOneLine(offsets: seq<nat>, pos: nat, i: nat, j: nat)
    requires Ascending(offsets) && i < |offsets| && j < |offsets|
    requires offsets[i] <= pos && (i + 1 < |offsets| ==> pos < offsets[i + 1])
    requires offsets[j] <= pos && (j + 1 < |offsets| ==> pos < offsets[j + 1])
    ensures i == j
  {
  }

  lemma LocatedLine(s: string, pos: nat, line: int, col: int)
    requires pos <= |s| && Locates(Offsets(s), pos, line, col)
    ensures line == |Offsets(s[..pos])| && Offsets(s[..pos])[line - 1] == pos - (col - 1)
  {
    OffsetsAscend(s);
    OffsetsAscend(s[..pos]);
    OffsetsOfPrefix(s, pos);
    hide Offsets, Ascending;
    OnlyOneLine(Offsets(s), pos, line - 1, |Offsets(s[..pos])| - 1);
  }

  lemma NoNewlineSince(t: string)
    ensures forall k :: Offsets(t)[|Offsets(t)| - 1] <= k < |t| ==> t[k] != '\n'
  {
    OffsetsAscend(t);
    LastIsLargest(Offsets(t));
    hide Offsets;
    forall k | Offsets(t)[|Offsets(t)| - 1] <= k < |t| ensures t[k] != '\n' {
      assert k + 1 !in Offsets(t);
    }
  }

  /** The line is one more than the newlines before the position, and the column one more than the bytes since the last of them: the
      located position's own line begins at `pos - (col - 1)`, with a newline right before it and none since. */
  lemma LocatesByNewlines(s: string, pos: nat, line: int, col: int)
    requires pos <= |s| && Locates(Offsets(s), pos, line, col)
    ensures line == Newlines(s[..pos]) + 1
    ensures pos - (col - 1) == 0 || s[pos - (col - 1) - 1] == '\n'
    ensures forall k :: pos - (col - 1) <= k < pos ==> s[k] != '\n'
  {
    hide Offsets, Newlines, Ascending;
    var before := s[..pos];
    LocatedLine(s, pos, line, col);
    OffsetsAscend(before);
    OffsetsCountNewlines(before);
    NoNewlineSince(before);
    var begin := pos - (col - 1);
    assert Offsets(before)[line - 1] in Offsets(before);
    forall k | begin <= k < pos ensures s[k] != '\n' {
      assert s[k] == before[k];
    }
  }

  lemma LastIsLargest(offsets: seq<nat>)
    requires Ascending(offsets) && |offsets| > 0
    ensures forall p :: p in offsets ==> p <= offsets[|offsets| - 1]
  {
  }

  lemma {:induction false} OffsetsFollowNewlines(s: string, t: string)
    requires |s| == |t| && forall k :: 0 <= k < |s| ==> (s[k] == '\n' <==> t[k] == '\n')
    ensures Offsets(s) == Offsets(t)
  {
    if s != "" {
      OffsetsFollowNewlines(s[..|s| - 1], t[..|t| - 1]);
    }
  }

  /** Masking attributes moves no line and no column of any position. */
  lemma MaskingKeepsLines(s: string)
    ensures Offsets(Masked(s, Spans(s, 0, Code(true)))) == Offsets(s)
  {
    MaskKeepsPlaces(s);
    OffsetsFollowNewlines(Masked(s, Spans(s, 0, Code(true))), s);
  }
}
