/** Which file names of a saved run may be written below a directory. */
module SafeNames {

  /** The parts between slashes. */
  function Split(s: string): (parts: seq<string>)
    ensures |parts| > 0
  {
    if s == "" then [""]
    else
      var parts := Split(s[..|s| - 1]);
      if s[|s| - 1] == '/' then parts + [""]
      else parts[..|parts| - 1] + [parts[|parts| - 1] + [s[|s| - 1]]]
  }

  function Join(parts: seq<string>): string
    requires |parts| > 0
  {
    if |parts| == 1 then parts[0] else Join(parts[..|parts| - 1]) + "/" + parts[|parts| - 1]
  }

  function Slashes(s: string): nat {
    if s == "" then 0 else Slashes(s[..|s| - 1]) + if s[|s| - 1] == '/' then 1 else 0
  }

  lemma {:induction false} SplitCountsSlashes(s: string)
    ensures |Split(s)| == Slashes(s) + 1
  {
    if s != "" {
      SplitCountsSlashes(s[..|s| - 1]);
    }
  }

  lemma {:induction false} SlashesAppend(s: string, t: string)
    ensures Slashes(s + t) == Slashes(s) + Slashes(t)
  {
    if t == "" {
      assert s + t == s;
    } else {
      SlashesAppend(s, t[..|t| - 1]);
      assert (s + t)[..|s + t| - 1] == s + t[..|t| - 1];
    }
  }

  lemma {:induction false} PartsHaveNoSlash(s: string)
    ensures forall k :: 0 <= k < |Split(s)| ==> '/' !in Split(s)[k]
  {
    if s != "" {
      PartsHaveNoSlash(s[..|s| - 1]);
    }
  }

  lemma {:induction false} JoinUndoesSplit(s: string)
    ensures Join(Split(s)) == s
  {
    if s != "" {
      var init, c := s[..|s| - 1], s[|s| - 1];
      JoinUndoesSplit(init);
      var parts, all := Split(init), Split(s);
      assert s == init + [c];
      hide Split;
      if c == '/' {
        assert all[..|all| - 1] == parts;
      } else {
        assert all[..|all| - 1] == parts[..|parts| - 1];
      }
    }
  }

  /** Splitting is undone by joining, and leaves no slash in a part. */
  lemma JoinSplit(s: string)
    ensures Join(Split(s)) == s
    ensures forall k :: 0 <= k < |Split(s)| ==> '/' !in Split(s)[k]
  {
    JoinUndoesSplit(s);
    PartsHaveNoSlash(s);
  }

  /** Go's lexical path cleaning of a relative path, part by part: empty parts and "." vanish, ".." takes back
      the part before it if there is one to take back. */
  function CleanParts(parts: seq<string>): (kept: seq<string>)
    ensures |kept| <= |parts|
  {
    if parts == [] then []
    else
      var before, last := CleanParts(parts[..|parts| - 1]), parts[|parts| - 1];
      if last == "" || last == "." then before
      else if last == ".." && before != [] && before[|before| - 1] != ".." then before[..|before| - 1]
      else before + [last]
  }

  function Clean(name: string): string {
    var kept := CleanParts(Split(name));
    if kept == [] then "." else Join(kept)
  }

  /** The rule of the code, clause by clause. */
  predicate Safe(name: string) {
    && name != "" && name != "."
    && '\\' !in name && '\0' !in name && ':' !in name
    && name[0] != '/' && Clean(name) == name
    && name != ".." && !("../" <= name)
  }

  predicate Plain(part: string) {
    part != "" && part != "." && part != ".."
  }

  /** How deep below the directory a path stands after walking these parts; negative once it has left it. */
  function Depth(parts: seq<string>): int {
    if parts == [] then 0
    else
      var before, last := Depth(parts[..|parts| - 1]), parts[|parts| - 1];
      if last == "" || last == "." then before else if last == ".." then before - 1 else before + 1
  }

  lemma {:induction false} PlainPartsStay(parts: seq<string>)
    requires forall k :: 0 <= k < |parts| ==> Plain(parts[k])
    ensures CleanParts(parts) == parts && Depth(parts) == |parts|
  {
    if parts != [] {
      PlainPartsStay(parts[..|parts| - 1]);
    }
  }

  /** Cleaning drops at least one slash for every part it drops. */
  lemma {:induction false} JoinSlashes(parts: seq<string>)
    requires |parts| > 0 && forall k :: 0 <= k < |parts| ==> '/' !in parts[k]
    ensures Slashes(Join(parts)) == |parts| - 1
  {
    if |parts| == 1 {
      NoSlashes(parts[0]);
    } else {
      var last := parts[|parts| - 1];
      JoinSlashes(parts[..|parts| - 1]);
      SlashesAppend(Join(parts[..|parts| - 1]) + "/", last);
      SlashesAppend(Join(parts[..|parts| - 1]), "/");
      assert "/"[..0] == "";
      NoSlashes(last);
    }
  }

  lemma {:induction false} NoSlashes(s: string)
    requires '/' !in s
    ensures Slashes(s) == 0
  {
    if s != "" {
      NoSlashes(s[..|s| - 1]);
    }
  }

  lemma {:induction false} CleanKeepsParts(parts: seq<string>)
    requires forall k :: 0 <= k < |parts| ==> '/' !in parts[k]
    ensures forall k :: 0 <= k < |CleanParts(parts)| ==> '/' !in CleanParts(parts)[k]
  {
    if parts != [] {
      CleanKeepsParts(parts[..|parts| - 1]);
    }
  }

  /** A path that cleaning leaves at full length has only plain parts behind a possible run of "..". */
  lemma {:induction false} FullLengthIsUntouched(parts: seq<string>)
    requires |CleanParts(parts)| == |parts|
    ensures CleanParts(parts) == parts
    ensures forall k :: 0 <= k < |parts| ==> parts[k] != "" && parts[k] != "."
    ensures forall k :: 0 < k < |parts| && parts[k] == ".." ==> parts[k - 1] == ".."
  {
    if parts != [] {
      FullLengthIsUntouched(parts[..|parts| - 1]);
    }
  }

  /** The rule admits exactly the relative names made of plain parts, so a safe name never leaves its directory
      at any point of the walk. */
  lemma SafeIsPlain(name: string)
    ensures Safe(name) <==>
            '\\' !in name && '\0' !in name && ':' !in name && (forall k :: 0 <= k < |Split(name)| ==> Plain(Split(name)[k]))
    ensures Safe(name) ==> forall n :: 0 <= n <= |Split(name)| ==> Depth(Split(name)[..n]) == n
  {
    var parts := Split(name);
    JoinSplit(name);
    if Safe(name) {
      SafeHasPlainParts(name);
    }
    if forall k :: 0 <= k < |parts| ==> Plain(parts[k]) {
      PlainPartsStay(parts);
      FirstPart(name);
      forall n | 0 <= n <= |parts| ensures Depth(parts[..n]) == n {
        PlainPartsStay(parts[..n]);
      }
    }
  }

  /** As many slashes before and after cleaning means no part was dropped. */
  lemma UnchangedKeepsAllParts(name: string)
    requires Clean(name) == name && name != "."
    ensures |CleanParts(Split(name))| == |Split(name)|
  {
    JoinSplit(name);
    SplitCountsSlashes(name);
    CleanKeepsParts(Split(name));
    hide Split, CleanParts;
    JoinSlashes(CleanParts(Split(name)));
  }

  lemma SafeHasPlainParts(name: string)
    requires Safe(name)
    ensures forall k :: 0 <= k < |Split(name)| ==> Plain(Split(name)[k])
  {
    hide Split, Clean, CleanParts;
    UnchangedKeepsAllParts(name);
    FullLengthIsUntouched(Split(name));
    FirstPart(name);
    NoClimb(Split(name));
  }

  lemma {:induction false} NoClimb(parts: seq<string>)
    requires parts == [] || parts[0] != ".."
    requires forall k :: 0 < k < |parts| && parts[k] == ".." ==> parts[k - 1] == ".."
    ensures forall k :: 0 <= k < |parts| ==> parts[k] != ".."
  {
    if parts != [] {
      var init, n := parts[..|parts| - 1], |parts| - 1;
      NoClimb(init);
      if n > 0 {
        assert init[n - 1] != "..";
      }
    }
  }

  /** What a name begins with decides its first part. */
  lemma FirstPart(name: string)
    ensures Split(name)[0] == ".." <==> name == ".." || "../" <= name
    ensures name != "" && name[0] == '/' ==> Split(name)[0] == ""
    ensures Split(name) == [""] <==> name == ""
    ensures Split(name) == ["."] <==> name == "."
  {
    var first := Split(name)[0];
    JoinSplit(name);
    JoinBegins(Split(name));
    SplitCountsSlashes(name);
    assert first != "" ==> first[0] != '/';
    if |Split(name)| == 1 {
      assert first == name;
    } else {
      BeginsWithParent(name, first);
      NotOnePart(name);
    }
  }

  lemma NotOnePart(name: string)
    requires Slashes(name) > 0
    ensures name != "" && name != "." && name != ".."
  {
    assert "."[..0] == "" && ".."[..1] == ".";
  }

  lemma BeginsWithParent(name: string, first: string)
    requires first + "/" <= name && '/' !in first
    ensures first == ".." <==> "../" <= name
    ensures name[0] == '/' ==> first == ""
  {
    assert forall k :: 0 <= k < |first| ==> first[k] == name[k] && first[k] != '/';
    assert (first + "/")[|first|] == name[|first|] == '/';
    if "../" <= name {
      assert name[0] == '.' && name[1] == '.' && name[2] == '/';
      assert |first| == 2;
      assert first == [first[0], first[1]];
    }
  }

  lemma {:induction false} JoinBegins(parts: seq<string>)
    requires |parts| > 0
    ensures |parts| == 1 ==> Join(parts) == parts[0]
    ensures |parts| > 1 ==> parts[0] + "/" <= Join(parts)
  {
    if |parts| > 1 {
      JoinBegins(parts[..|parts| - 1]);
    }
  }
}
