/** One saved result: two fields replaced, all others kept. */
module SavedResult {
  import opened Options
  import opened SafeNames

  const METHOD: string := "contextual-v2"
  const TOOL_FILE: string := "tool_file"
  const FLAG_SHARE: real := 0.25

  datatype Tell = Tell(kind: string, flagged: bool, title: string)

  datatype Row = Row(id: string, score: real, matchCount: int, matches: seq<string>, flagged: bool, tells: seq<Tell>, aiScore: Option<int>)

  datatype Report = Report(methodName: string, entryCount: int, usable: int, errors: seq<string>, rows: seq<Row>)

  datatype SavedFile = SavedFile(name: string, content: string)

  datatype SavedSubmission = SavedSubmission(id: string, cFiles: seq<string>, files: seq<SavedFile>)

  /** A field's value; those that are read or written have their own shapes, the rest is kept as it is. */
  datatype Field = Raw(text: string)
                 | Null
                 | SourceFile(name: string)
                 | Results(submissions: seq<SavedSubmission>)
                 | Detection(report: Report)
                 | Links(similarity: string)
                 | Stamp(methodName: string, previous: string, completedAt: string)

  type Fields = map<string, Field>

  /** A stored body: a JSON object, or something that is not one. */
  datatype Body = Malformed(text: string) | Object(fields: Fields)

  datatype Outcome = Unchanged(body: Body) | Updated(body: Body) | Failed(message: string)

  // ---------------------------------------------------------------- reading the saved run

  function FieldOf(fields: Fields, key: string): Field {
    if key in fields then fields[key] else Null
  }

  /** Every field that is read has its expected shape; a missing one reads like a null. */
  predicate Decodes(fields: Fields) {
    && (FieldOf(fields, "source_file").SourceFile? || FieldOf(fields, "source_file").Null?)
    && (FieldOf(fields, "results").Results? || FieldOf(fields, "results").Null?)
    && (FieldOf(fields, "ai_detection").Detection? || FieldOf(fields, "ai_detection").Null?)
    && (FieldOf(fields, "similarity").Links? || FieldOf(fields, "similarity").Null?)
  }

  function SourceOf(fields: Fields): string
    requires Decodes(fields)
  {
    if FieldOf(fields, "source_file").Null? then "" else FieldOf(fields, "source_file").name
  }

  function SubmissionsOf(fields: Fields): seq<SavedSubmission>
    requires Decodes(fields)
  {
    if FieldOf(fields, "results").Null? then [] else FieldOf(fields, "results").submissions
  }

  function SavedReport(fields: Fields): Option<Report>
    requires Decodes(fields)
  {
    if FieldOf(fields, "ai_detection").Null? then None else Some(FieldOf(fields, "ai_detection").report)
  }

  function LinksOf(fields: Fields): Option<string>
    requires Decodes(fields)
  {
    if FieldOf(fields, "similarity").Null? then None else Some(FieldOf(fields, "similarity").similarity)
  }

  /** The saved analysis is stamped with the current method. */
  predicate Current(body: Body) {
    body.Object? && Decodes(body.fields) && SavedReport(body.fields).Some? && SavedReport(body.fields).value.methodName == METHOD
  }

  /** Two names that cannot both be files: the same one, or one a directory of the other. */
  predicate Collide(name: string, other: string) {
    name == other || name + "/" <= other || other + "/" <= name
  }

  predicate NamesAreUsable(files: seq<SavedFile>) {
    && (forall k :: 0 <= k < |files| ==> Safe(files[k].name))
    && (forall j, k :: 0 <= j < k < |files| ==> !Collide(files[j].name, files[k].name))
  }

  predicate HasAll(files: seq<SavedFile>, expected: seq<string>) {
    forall name :: name in expected ==> Names(files, name)
  }

  /** Distinct non-empty ids, safe file names that do not collide, and every listed C file present. */
  predicate SubmissionsAreUsable(submissions: seq<SavedSubmission>) {
    && (forall i :: 0 <= i < |submissions| ==>
          submissions[i].id != "" && NamesAreUsable(submissions[i].files) && HasAll(submissions[i].files, submissions[i].cFiles))
    && (forall i, j :: 0 <= i < j < |submissions| ==> submissions[i].id != submissions[j].id)
  }

  function OldRows(saved: Option<Report>): seq<Row> {
    if saved.Some? then saved.value.rows else []
  }

  /** The row kept for an id: the last one saved under it. */
  function OldRow(rows: seq<Row>, id: string): Option<Row> {
    if rows == [] then None
    else if rows[|rows| - 1].id == id then Some(rows[|rows| - 1])
    else OldRow(rows[..|rows| - 1], id)
  }

  /** It is the last of all rows with that id. */
  lemma {:induction false} OldRowIsLast(rows: seq<Row>, id: string, k: nat)
    ensures k < |rows| && rows[k].id == id && (forall j :: k < j < |rows| ==> rows[j].id != id) ==> OldRow(rows, id) == Some(rows[k])
    ensures (forall j :: 0 <= j < |rows| ==> rows[j].id != id) <==> OldRow(rows, id) == None
  {
    if rows != [] {
      var n := |rows| - 1;
      OldRowIsLast(rows[..n], id, k);
    }
  }

  /** With a usable dictionary, every submission must still have its saved coverage. */
  predicate CoverageIsSaved(saved: Option<Report>, rows: seq<Row>) {
    saved.Some? && saved.value.usable > 0 ==> forall k :: 0 <= k < |rows| ==> OldRow(saved.value.rows, rows[k].id).Some?
  }

  // ---------------------------------------------------------------- one row

  function ToolTells(tells: seq<Tell>): seq<Tell> {
    if tells == [] then []
    else
      var before, last := ToolTells(tells[..|tells| - 1]), tells[|tells| - 1];
      if last.kind == TOOL_FILE then before + [last] else before
  }

  predicate AnyFlagged(tells: seq<Tell>) {
    exists k :: 0 <= k < |tells| && tells[k].flagged
  }

  /** The recomputed row with the saved dictionary evidence and archive artifacts put back. */
  function Merge(row: Row, saved: Option<Row>, rescore: Row -> Option<int>): Row {
    var score := if saved.Some? then saved.value.score else 0.0;
    var tells := if saved.Some? then ToolTells(saved.value.tells) else [];
    var merged := row.(score := score,
                       matchCount := if saved.Some? then saved.value.matchCount else 0,
                       matches := if saved.Some? then saved.value.matches else [],
                       flagged := row.flagged || score >= FLAG_SHARE || AnyFlagged(tells),
                       tells := row.tells + tells);
    merged.(aiScore := rescore(merged))
  }

  method MergeRow(row: Row, saved: Option<Row>, rescore: Row -> Option<int>) returns (r: Row)
    ensures r == Merge(row, saved, rescore)
  {
    r := if saved.Some? then row.(score := saved.value.score, matchCount := saved.value.matchCount, matches := saved.value.matches)
         else row.(score := 0.0, matchCount := 0, matches := []);
    r := r.(flagged := r.flagged || r.score >= FLAG_SHARE);
    if saved.Some? {
      var tells := saved.value.tells;
      ghost var start := r;
      for k := 0 to |tells|
        invariant r == start.(tells := row.tells + ToolTells(tells[..k]), flagged := start.flagged || AnyFlagged(ToolTells(tells[..k])))
      {
        assert tells[..k + 1][..k] == tells[..k];
        if tells[k].kind == TOOL_FILE {
          AnyFlaggedAppend(ToolTells(tells[..k]), tells[k]);
          assert row.tells + (ToolTells(tells[..k]) + [tells[k]]) == row.tells + ToolTells(tells[..k]) + [tells[k]];
          r := r.(tells := r.tells + [tells[k]], flagged := r.flagged || tells[k].flagged);
        }
      }
      assert tells[..|tells|] == tells;
    } else {
      assert row.tells + [] == row.tells;
    }
    r := r.(aiScore := rescore(r));
  }

  lemma AnyFlaggedAppend(tells: seq<Tell>, t: Tell)
    ensures AnyFlagged(tells + [t]) <==> AnyFlagged(tells) || t.flagged
  {
    if k :| 0 <= k < |tells| && tells[k].flagged {
      assert (tells + [t])[k].flagged;
    }
    if t.flagged {
      assert (tells + [t])[|tells|].flagged;
    }
  }

  // ---------------------------------------------------------------- checking the submissions

  predicate Names(files: seq<SavedFile>, name: string) {
    exists k :: 0 <= k < |files| && files[k].name == name
  }

  predicate CollidesWithAny(name: string, seen: set<string>) {
    exists other :: other in seen && Collide(other, name)
  }

  lemma OneMoreName(files: seq<SavedFile>, k: nat, seen: set<string>)
    requires k < |files| && NamesAreUsable(files[..k]) && (forall name :: name in seen <==> Names(files[..k], name))
    ensures NamesAreUsable(files[..k + 1]) <==> Safe(files[k].name) && !CollidesWithAny(files[k].name, seen)
    ensures forall name :: name in seen + {files[k].name} <==> Names(files[..k + 1], name)
  {
    hide Safe, Collide;
    var before, after := files[..k], files[..k + 1];
    assert after == before + [files[k]];
    assert forall j :: 0 <= j < k ==> after[j] == before[j];
    if CollidesWithAny(files[k].name, seen) {
      var other :| other in seen && Collide(other, files[k].name);
      var j :| 0 <= j < k && before[j].name == other;
      assert Collide(after[j].name, after[k].name);
    } else {
      forall j | 0 <= j < k ensures !Collide(after[j].name, after[k].name) {
        assert Names(before, before[j].name);
      }
    }
    forall name ensures name in seen + {files[k].name} <==> Names(after, name) {
      if Names(before, name) {
        var j :| 0 <= j < k && before[j].name == name;
        assert after[j].name == name;
      }
      if name == files[k].name {
        assert after[k].name == name;
      }
      if Names(after, name) {
        var j :| 0 <= j <= k && after[j].name == name;
        assert j < k ==> before[j].name == name;
      }
    }
  }

  lemma PrefixIsUsable(files: seq<SavedFile>, k: nat)
    requires k <= |files| && NamesAreUsable(files)
    ensures NamesAreUsable(files[..k])
  {
    hide Safe, Collide;
  }

  /** engine/ai_reanalysis.go, lines 62-77: an unsafe or repeated name is refused, and a file cannot be written where a directory is needed. */
  method CheckNames(files: seq<SavedFile>) returns (ok: bool, seen: set<string>)
    ensures ok <==> NamesAreUsable(files)
    ensures ok ==> forall name :: name in seen <==> Names(files, name)
  {
    hide Safe, NamesAreUsable, CollidesWithAny;
    seen := {};
    NoNames(files);
    for k := 0 to |files|
      invariant NamesAreUsable(files[..k]) && (forall name :: name in seen <==> Names(files[..k], name))
    {
      OneMoreName(files, k, seen);
      if !Safe(files[k].name) || CollidesWithAny(files[k].name, seen) {
        if NamesAreUsable(files) {
          PrefixIsUsable(files, k + 1);
        }
        return false, seen;
      }
      seen := seen + {files[k].name};
    }
    assert files[..|files|] == files;
    return true, seen;
  }

  lemma NoNames(files: seq<SavedFile>)
    ensures NamesAreUsable(files[..0]) && forall name :: !Names(files[..0], name)
  {
  }

  method CheckSubmission(s: SavedSubmission) returns (ok: bool)
    ensures ok <==> NamesAreUsable(s.files) && HasAll(s.files, s.cFiles)
  {
    hide NamesAreUsable;
    var named, seen := CheckNames(s.files);
    if !named {
      return false;
    }
    for k := 0 to |s.cFiles|
      invariant forall j :: 0 <= j < k ==> Names(s.files, s.cFiles[j])
    {
      if s.cFiles[k] !in seen {
        assert s.cFiles[k] in s.cFiles;
        return false;
      }
    }
    return true;
  }

  method CheckSubmissions(submissions: seq<SavedSubmission>) returns (ok: bool)
    ensures ok <==> SubmissionsAreUsable(submissions)
  {
    var seenIDs: set<string> := {};
    for i := 0 to |submissions|
      invariant seenIDs == set j | 0 <= j < i :: submissions[j].id
      invariant SubmissionsAreUsable(submissions[..i])
    {
      var s := submissions[i];
      if s.id == "" || s.id in seenIDs {
        return false;
      }
      seenIDs := seenIDs + {s.id};
      var usable := CheckSubmission(s);
      if !usable {
        return false;
      }
    }
    assert submissions[..|submissions|] == submissions;
    return true;
  }

  // ---------------------------------------------------------------- the whole result

  function Merged(rows: seq<Row>, saved: Option<Report>, rescore: Row -> Option<int>): (r: seq<Row>)
    ensures |r| == |rows|
  {
    seq(|rows|, k requires 0 <= k < |rows| => Merge(rows[k], OldRow(OldRows(saved), rows[k].id), rescore))
  }

  /** Links the finished rows by the saved similarity report and sorts them. */
  type Arrange = (Option<string>, seq<Row>) -> seq<Row>

  /** The report that replaces the saved one. */
  function NewReport(rows: seq<Row>, saved: Option<Report>, rescore: Row -> Option<int>, links: Option<string>, arrange: Arrange): Report {
    Report(METHOD,
           if saved.Some? then saved.value.entryCount else 0,
           if saved.Some? then saved.value.usable else 0,
           if saved.Some? then saved.value.errors else [],
           arrange(links, Merged(rows, saved, rescore)))
  }

  function PreviousMethod(saved: Option<Report>): string {
    if saved.Some? then saved.value.methodName else ""
  }

  /** What a caller can check before the call: the saved run can be analysed again. */
  predicate Refreshable(body: Body, analyze: seq<SavedSubmission> -> Option<seq<Row>>) {
    && body.Object? && Decodes(body.fields) && !Current(body)
    && "results" in body.fields && SourceOf(body.fields) != "" && Safe(SourceOf(body.fields))
    && SubmissionsAreUsable(SubmissionsOf(body.fields))
    && analyze(SubmissionsOf(body.fields)).Some?
    && CoverageIsSaved(SavedReport(body.fields), analyze(SubmissionsOf(body.fields)).value)
  }

  /** `after` is `before` with a new analysis: only the two analysis fields differ, and they carry the current method. */
  predicate IsRefreshOf(before: Body, after: Body) {
    && before.Object? && Decodes(before.fields) && !Current(before)
    && after.Object? && Current(after)
    && after.fields.Keys == before.fields.Keys + {"ai_detection", "ai_reanalysis"}
    && (forall key :: key in before.fields && key != "ai_detection" && key != "ai_reanalysis" ==> after.fields[key] == before.fields[key])
    && after.fields["ai_reanalysis"].Stamp? && after.fields["ai_reanalysis"].methodName == METHOD
    && after.fields["ai_reanalysis"].previous == PreviousMethod(SavedReport(before.fields))
  }

  method MergeRows(rows: array<Row>, saved: Option<Report>, rescore: Row -> Option<int>) returns (ok: bool)
    modifies rows
    ensures ok <==> CoverageIsSaved(saved, old(rows[..]))
    ensures ok ==> rows[..] == Merged(old(rows[..]), saved, rescore)
  {
    ghost var before := rows[..];
    for i := 0 to rows.Length
      invariant rows[i..] == before[i..]
      invariant rows[..i] == Merged(before, saved, rescore)[..i]
      invariant CoverageIsSaved(saved, before[..i])
    {
      assert rows[i] == before[i];
      var previous := FindOld(saved, rows[i].id);
      if saved.Some? && saved.value.usable > 0 && previous.None? {
        return false;
      }
      var merged := MergeRow(rows[i], previous, rescore);
      rows[i] := merged;
      assert rows[i + 1..] == before[i + 1..];
    }
    assert before[..rows.Length] == before;
    return true;
  }

  /** engine/ai_reanalysis.go, lines 94-105: the map of saved rows, where a later row replaces an earlier one with the same id. */
  method FindOld(saved: Option<Report>, id: string) returns (r: Option<Row>)
    ensures r == OldRow(OldRows(saved), id)
  {
    if saved.None? {
      return None;
    }
    var rows: map<string, Row> := map[];
    var list := saved.value.rows;
    for k := 0 to |list|
      invariant (if id in rows then Some(rows[id]) else None) == OldRow(list[..k], id)
    {
      assert list[..k + 1][..k] == list[..k];
      rows := rows[list[k].id := list[k]];
    }
    assert list[..|list|] == list;
    r := if id in rows then Some(rows[id]) else None;
  }

  /** engine/ai_reanalysis.go, lines 94-120: the recomputed rows with the saved evidence put back, unless some coverage is missing. */
  method BuildReport(computed: seq<Row>, saved: Option<Report>, rescore: Row -> Option<int>, links: Option<string>, arrange: Arrange) returns (r: Option<Report>)
    ensures r.Some? <==> CoverageIsSaved(saved, computed)
    ensures r.Some? ==> r.value == NewReport(computed, saved, rescore, links, arrange)
    ensures r.Some? ==> r.value.methodName == METHOD
  {
    hide CoverageIsSaved, Merged;
    var rows := new Row[|computed|](k requires 0 <= k < |computed| => computed[k]);
    assert rows[..] == computed;
    var covered := MergeRows(rows, saved, rescore);
    if !covered {
      return None;
    }
    return Some(Report(METHOD,
                       if saved.Some? then saved.value.entryCount else 0,
                       if saved.Some? then saved.value.usable else 0,
                       if saved.Some? then saved.value.errors else [],
                       arrange(links, rows[..])));
  }

  /** engine/ai_reanalysis.go, lines 17-139.  `analyze` recomputes one row per submission, `rescore` the overall score of a merged row,
      and `arrange` links and sorts the finished rows. */
  method Reanalyze(body: Body, analyze: seq<SavedSubmission> -> Option<seq<Row>>, rescore: Row -> Option<int>,
                   arrange: Arrange, now: string) returns (r: Outcome)
    ensures r.Unchanged? <==> Current(body)
    ensures r.Updated? <==> Refreshable(body, analyze)
    ensures r.Unchanged? ==> r.body == body
    ensures r.Updated? ==>
              && IsRefreshOf(body, r.body)
              && r.body.fields["ai_detection"].report ==
                 NewReport(analyze(SubmissionsOf(body.fields)).value, SavedReport(body.fields), rescore, LinksOf(body.fields), arrange)
              && r.body.fields["ai_reanalysis"].completedAt == now
  {
    hide CoverageIsSaved, SubmissionsAreUsable, Safe, NewReport;
    if body.Malformed? {
      return Failed("invalid saved result JSON");
    }
    var fields := body.fields;
    if !Decodes(fields) {
      return Failed("invalid saved result");
    }
    var saved := SavedReport(fields);
    if saved.Some? && saved.value.methodName == METHOD {
      return Unchanged(body);
    }
    if "results" !in fields || SourceOf(fields) == "" || !Safe(SourceOf(fields)) {
      return Failed("saved run has no usable results or source_file");
    }
    var submissions := SubmissionsOf(fields);
    var usable := CheckSubmissions(submissions);
    if !usable {
      return Failed("unusable submissions");
    }
    var computed := analyze(submissions);
    if computed.None? {
      return Failed("analysis failed");
    }
    var report := BuildReport(computed.value, saved, rescore, LinksOf(body.fields), arrange);
    if report.None? {
      return Failed("saved dictionary coverage missing");
    }
    fields := fields["ai_detection" := Detection(report.value)];
    fields := fields["ai_reanalysis" := Stamp(METHOD, PreviousMethod(saved), now)];
    return Updated(Object(fields));
  }

  /** A refresh is a checkpoint: what it writes is current, so analysing it again changes nothing, whatever the analysis would say. */
  lemma RefreshIsACheckpoint(before: Body, after: Body, analyze: seq<SavedSubmission> -> Option<seq<Row>>)
    requires IsRefreshOf(before, after)
    ensures Current(after) && !Refreshable(after, analyze) && before != after
  {
  }

  /** Saved dictionary evidence and tool-file artifacts survive the merge, and no flag is lost. */
  lemma MergeKeepsEvidence(row: Row, saved: Row, rescore: Row -> Option<int>)
    ensures var merged := Merge(row, Some(saved), rescore);
            && merged.id == row.id && merged.score == saved.score && merged.matches == saved.matches && merged.matchCount == saved.matchCount
            && (forall t :: t in merged.tells <==> t in row.tells || (t in saved.tells && t.kind == TOOL_FILE))
            && (merged.flagged <==> row.flagged || saved.score >= FLAG_SHARE || exists t :: t in saved.tells && t.kind == TOOL_FILE && t.flagged)
  {
    ToolTellsAre(saved.tells);
    var merged := Merge(row, Some(saved), rescore);
    assert forall t :: t in merged.tells <==> t in row.tells || t in ToolTells(saved.tells);
    if t :| t in saved.tells && t.kind == TOOL_FILE && t.flagged {
      assert t in ToolTells(saved.tells);
    }
  }

  /** The report carries the saved dictionary counters over, or none; each row it arranges is the recomputed one with the evidence saved last under its
      id put back first and its overall score computed from that. */
  lemma NewReportCarries(rows: seq<Row>, saved: Option<Report>, rescore: Row -> Option<int>, links: Option<string>, arrange: Arrange, k: nat)
    requires k < |rows|
    ensures var report := NewReport(rows, saved, rescore, links, arrange);
            && report.methodName == "contextual-v2"
            && report.entryCount == (if saved.Some? then saved.value.entryCount else 0)
            && report.usable == (if saved.Some? then saved.value.usable else 0)
            && report.errors == (if saved.Some? then saved.value.errors else [])
            && exists merged: seq<Row> :: |merged| == |rows| && report.rows == arrange(links, merged) && Carries(rows[k], OldRow(OldRows(saved), rows[k].id), merged[k], rescore)
  {
    var kept := OldRow(OldRows(saved), rows[k].id);
    if kept.Some? {
      MergeKeepsEvidence(rows[k], kept.value, rescore);
    } else {
      assert rows[k].tells + [] == rows[k].tells;
    }
    var merged := Merged(rows, saved, rescore);
    assert Carries(rows[k], kept, merged[k], rescore);
  }

  /** `merged` is the recomputed row with the saved evidence in it, scored with that evidence. */
  ghost predicate Carries(row: Row, kept: Option<Row>, merged: Row, rescore: Row -> Option<int>) {
    && merged.id == row.id
    && merged.score == (if kept.Some? then kept.value.score else 0.0)
    && merged.matchCount == (if kept.Some? then kept.value.matchCount else 0)
    && merged.matches == (if kept.Some? then kept.value.matches else [])
    && (forall t :: t in merged.tells <==> t in row.tells || (kept.Some? && t in kept.value.tells && t.kind == "tool_file"))
    && (merged.flagged <==> row.flagged || merged.score >= 0.25 || (kept.Some? && exists t :: t in kept.value.tells && t.kind == "tool_file" && t.flagged))
    && merged.aiScore == rescore(merged.(aiScore := row.aiScore))
  }

  lemma {:induction false} ToolTellsAre(tells: seq<Tell>)
    ensures forall t :: t in ToolTells(tells) <==> t in tells && t.kind == TOOL_FILE
  {
    if tells != [] {
      var n := |tells| - 1;
      ToolTellsAre(tells[..n]);
      assert tells == tells[..n] + [tells[n]];
    }
  }
}
