/** One pass over the saved results: which listed objects are runs, and what the status says about them. */
module RefreshPass {
  import opened SafeNames
  import RefreshProtocol
  import SavedResult

  // ---------------------------------------------------------------- which keys are runs

  predicate IsSpace(c: char) {
    || '\t' <= c <= '\r' || c == ' ' || c == '\U{85}' || c == '\U{a0}' || c == '\U{1680}'
    || '\U{2000}' <= c <= '\U{200a}' || c == '\U{2028}' || c == '\U{2029}' || c == '\U{202f}' || c == '\U{205f}' || c == '\U{3000}'
  }

  function TrimLeft(s: string): string {
    if s != "" && IsSpace(s[0]) then TrimLeft(s[1..]) else s
  }

  function TrimRight(s: string): string {
    if s != "" && IsSpace(s[|s| - 1]) then TrimRight(s[..|s| - 1]) else s
  }

  function TrimSpace(s: string): string {
    TrimRight(TrimLeft(s))
  }

  predicate IsIDChar(c: char) {
    '0' <= c <= '9' || 'a' <= c <= 'z' || 'A' <= c <= 'Z' || c == '-' || c == '_'
  }

  predicate IsRunID(s: string) {
    TrimSpace(s) != "" && forall k :: 0 <= k < |TrimSpace(s)| ==> IsIDChar(TrimSpace(s)[k])
  }

  method NormalizeRunID(runID: string) returns (ok: bool, normalized: string)
    ensures ok <==> IsRunID(runID)
    ensures ok ==> normalized == TrimSpace(runID)
  {
    normalized := TrimSpace(runID);
    if normalized == "" {
      return false, "";
    }
    for k := 0 to |normalized|
      invariant forall j :: 0 <= j < k ==> IsIDChar(normalized[j])
    {
      if !IsIDChar(normalized[k]) {
        return false, "";
      }
    }
    return true, normalized;
  }

  /** The filter of lines 113-119 of autoscan-server/ai_reanalysis.go, on a key without the result prefix. */
  predicate IsRunResult(rel: string) {
    |Split(rel)| == 2 && Split(rel)[1] == "result.json" && IsRunID(Split(rel)[0])
  }

  function ResultName(run: string): string {
    run + "/result.json"
  }

  function BackupName(run: string, hex: string): string {
    run + "/ai-revisions/" + SavedResult.METHOD + "/" + hex + ".json"
  }

  /** The filter admits exactly the results directly below a run's own directory. */
  lemma RunResultsAre(rel: string)
    ensures IsRunResult(rel) <==> exists run :: '/' !in run && IsRunID(run) && rel == ResultName(run)
  {
    JoinSplit(rel);
    if IsRunResult(rel) {
      var parts := Split(rel);
      assert parts == [parts[0], "result.json"];
      assert parts[..1] == [parts[0]];
      assert rel == parts[0] + "/" + "result.json" == ResultName(parts[0]);
    }
    if run :| '/' !in run && IsRunID(run) && rel == ResultName(run) {
      SplitResultName(run);
    }
  }

  lemma {:induction false} SplitPlain(s: string)
    requires '/' !in s
    ensures Split(s) == [s]
  {
    if s != "" {
      SplitPlain(s[..|s| - 1]);
      assert s == s[..|s| - 1] + [s[|s| - 1]];
    }
  }

  lemma {:induction false} SplitAppendPlain(s: string, t: string)
    requires '/' !in t
    ensures Split(s + t) == Split(s)[..|Split(s)| - 1] + [Split(s)[|Split(s)| - 1] + t]
  {
    var parts := Split(s);
    if t == "" {
      assert s + t == s && parts[|parts| - 1] + t == parts[|parts| - 1];
    } else {
      var init, c := t[..|t| - 1], t[|t| - 1];
      SplitAppendPlain(s, init);
      assert (s + t)[..|s + t| - 1] == s + init;
      assert parts[|parts| - 1] + t == parts[|parts| - 1] + init + [c];
    }
  }

  lemma SplitResultName(run: string)
    requires '/' !in run
    ensures Split(ResultName(run)) == [run, "result.json"]
  {
    SplitPlain(run);
    assert (run + "/")[..|run + "/"| - 1] == run;
    assert Split(run + "/") == [run, ""];
    assert "/result.json" == "/" + "result.json";
    SplitAppendPlain(run + "/", "result.json");
    assert [run, ""][..1] == [run] && "" + "result.json" == "result.json";
    assert run + "/" + "result.json" == ResultName(run);
  }

  /** A backup is never taken for a run, so it is never refreshed and never backed up itself. */
  lemma BackupsAreNotScanned(run: string, hex: string)
    ensures !IsRunResult(BackupName(run, hex))
  {
    var name := BackupName(run, hex);
    var rest := SavedResult.METHOD + "/" + hex + ".json";
    SplitCountsSlashes(name);
    assert "/ai-revisions/" == "/" + "ai-revisions" + "/";
    assert name == run + "/" + "ai-revisions" + "/" + rest;
    SlashesAppend(run + "/" + "ai-revisions" + "/", rest);
    SlashesAppend(run + "/" + "ai-revisions", "/");
    SlashesAppend(run + "/", "ai-revisions");
    SlashesAppend(run, "/");
    assert "/"[..0] == "";
    assert Slashes("/") == 1;
  }

  // ---------------------------------------------------------------- the pass

  /** How the turn of one scanned object goes: the pass is cancelled while waiting for the slot, or the refresh ends. */
  datatype Turn = Cancelled | Refreshed | AlreadyCurrent | Failure(message: string)

  datatype Item = ListError(message: string) | Listed(rel: string, size: nat, turn: Turn)

  datatype Phase = Running | Complete | Retrying | Interrupted

  datatype Status = Status(phase: Phase, scanned: nat, updated: nat, current: nat, failed: nat, lastError: string)

  const TOO_LARGE: string := "saved result exceeds the 50 MiB limit"

  predicate IsRun(item: Item) {
    item.Listed? && IsRunResult(item.rel)
  }

  predicate IsLarge(item: Item) {
    item.Listed? && item.size > RefreshProtocol.MAX_BYTES
  }

  predicate IsCancelled(item: Item) {
    IsRun(item) && !IsLarge(item) && item.turn.Cancelled?
  }

  /** The refresh is given the slot. */
  predicate TakesTurn(item: Item) {
    IsRun(item) && !IsLarge(item) && !item.turn.Cancelled?
  }

  predicate IsRefreshed(item: Item) {
    IsRun(item) && !IsLarge(item) && item.turn.Refreshed?
  }

  predicate IsCurrent(item: Item) {
    IsRun(item) && !IsLarge(item) && item.turn.AlreadyCurrent?
  }

  predicate IsFailure(item: Item) {
    item.ListError? || (IsRun(item) && (IsLarge(item) || item.turn.Failure?))
  }

  /** A listing error or a cancelled wait ends the pass. */
  predicate Ends(item: Item) {
    item.ListError? || IsCancelled(item)
  }

  function Count(items: seq<Item>, p: Item -> bool): nat {
    if items == [] then 0 else Count(items[..|items| - 1], p) + if p(items[|items| - 1]) then 1 else 0
  }

  /** The items the pass looks at: up to and including the one that ends it. */
  function Seen(items: seq<Item>): seq<Item> {
    if items == [] then []
    else if Ends(items[0]) then items[..1]
    else [items[0]] + Seen(items[1..])
  }

  function ErrorOf(item: Item): string
    requires IsFailure(item)
  {
    if item.ListError? then item.message else if IsLarge(item) then TOO_LARGE else item.turn.message
  }

  function LastError(items: seq<Item>): string {
    if items == [] then ""
    else if IsFailure(items[|items| - 1]) then ErrorOf(items[|items| - 1])
    else LastError(items[..|items| - 1])
  }

  /** Every scanned run is counted exactly once: as updated, current, failed, or cancelled.  Only a listing error is a failure that was
      not scanned. */
  lemma {:induction false} EveryRunIsCountedOnce(items: seq<Item>)
    ensures Count(items, IsRun) + Count(items, (item: Item) => item.ListError?) ==
            Count(items, IsRefreshed) + Count(items, IsCurrent) + Count(items, IsFailure) + Count(items, IsCancelled)
  {
    hide IsRunResult;
    if items != [] {
      EveryRunIsCountedOnce(items[..|items| - 1]);
    }
  }

  /** At most one item of a pass ends it, and it is the last one. */
  lemma {:induction false} SeenEndsOnce(items: seq<Item>)
    ensures Seen(items) <= items
    ensures Count(Seen(items), Ends) <= 1
    ensures Seen(items) == items || Ends(Seen(items)[|Seen(items)| - 1])
    ensures forall k :: 0 <= k < |Seen(items)| - 1 ==> !Ends(Seen(items)[k])
  {
    hide IsRunResult;
    if items != [] && !Ends(items[0]) {
      SeenEndsOnce(items[1..]);
      var seen := Seen(items[1..]);
      CountPrepend(items[0], seen, Ends);
    }
  }

  lemma {:induction false} CountPrepend(item: Item, items: seq<Item>, p: Item -> bool)
    ensures Count([item] + items, p) == (if p(item) then 1 else 0) + Count(items, p)
  {
    if items == [] {
      assert [item] + items == [item];
      assert [item][..0] == [];
    } else {
      CountPrepend(item, items[..|items| - 1], p);
      assert ([item] + items)[..|items|] == [item] + items[..|items| - 1];
    }
  }

  function Places(items: seq<Item>, p: Item -> bool): set<nat> {
    set k: nat | k < |items| && p(items[k])
  }

  lemma {:induction false} CountIsPlaces(items: seq<Item>, p: Item -> bool)
    ensures Count(items, p) == |Places(items, p)|
  {
    if items == [] {
      assert Places(items, p) == {};
    } else {
      var n := |items| - 1;
      CountIsPlaces(items[..n], p);
      if p(items[n]) {
        assert Places(items, p) == Places(items[..n], p) + {n};
      } else {
        assert Places(items, p) == Places(items[..n], p);
      }
    }
  }

  /** What the final numbers say: which results were refreshed, current or failing, all of them results of runs, and failures also listing errors and
      objects over 50 MiB; the last error is that of the last failure. */
  lemma StatusSays(status: Status, seen: seq<Item>)
    requires Tallies(status, seen)
    ensures status.scanned == |set k: nat | k < |seen| && seen[k].Listed? && IsRunResult(seen[k].rel)|
    ensures status.updated == |set k: nat | k < |seen| && seen[k].Listed? && IsRunResult(seen[k].rel) && seen[k].size <= 52428800 && seen[k].turn == Refreshed|
    ensures status.current == |set k: nat | k < |seen| && seen[k].Listed? && IsRunResult(seen[k].rel) && seen[k].size <= 52428800 && seen[k].turn == AlreadyCurrent|
    ensures status.failed == |set k: nat | k < |seen| &&
              (seen[k].ListError? || (IsRunResult(seen[k].rel) && (seen[k].size > 52428800 || seen[k].turn.Failure?)))|
  {
    hide IsRunResult, Count, LastError;
    CountIsPlaces(seen, IsRun);
    CountIsPlaces(seen, IsRefreshed);
    CountIsPlaces(seen, IsCurrent);
    CountIsPlaces(seen, IsFailure);
    assert Places(seen, IsRun) == set k: nat | k < |seen| && seen[k].Listed? && IsRunResult(seen[k].rel);
    assert Places(seen, IsRefreshed) ==
           set k: nat | k < |seen| && seen[k].Listed? && IsRunResult(seen[k].rel) && seen[k].size <= 52428800 && seen[k].turn == Refreshed;
    assert Places(seen, IsCurrent) ==
           set k: nat | k < |seen| && seen[k].Listed? && IsRunResult(seen[k].rel) && seen[k].size <= 52428800 && seen[k].turn == AlreadyCurrent;
    assert Places(seen, IsFailure) ==
           set k: nat | k < |seen| && (seen[k].ListError? || (IsRunResult(seen[k].rel) && (seen[k].size > 52428800 || seen[k].turn.Failure?)));
  }

  predicate Tallies(status: Status, seen: seq<Item>) {
    && status.scanned == Count(seen, IsRun)
    && status.updated == Count(seen, IsRefreshed)
    && status.current == Count(seen, IsCurrent)
    && status.failed == Count(seen, IsFailure)
    && status.lastError == LastError(seen)
  }

  /** What is published while the pass runs accounts for every run scanned so far. */
  predicate Accounted(status: Status) {
    status.phase == Running ==> status.scanned == status.updated + status.current + status.failed
  }

  predicate AllAccounted(history: seq<Status>) {
    forall k :: 0 <= k < |history| ==> Accounted(history[k])
  }

  /** What one item adds to the status. */
  predicate Adds(s: Status, t: Status, item: Item) {
    t == s.(phase := if IsCancelled(item) then Interrupted else s.phase,
            scanned := s.scanned + if IsRun(item) then 1 else 0,
            updated := s.updated + if IsRefreshed(item) then 1 else 0,
            current := s.current + if IsCurrent(item) then 1 else 0,
            failed := s.failed + if IsFailure(item) then 1 else 0,
            lastError := if IsFailure(item) then ErrorOf(item) else s.lastError)
  }

  lemma TallyStep(s: Status, t: Status, items: seq<Item>, i: nat)
    requires i < |items| && Tallies(s, items[..i]) && Adds(s, t, items[i])
    ensures Tallies(t, items[..i + 1])
    ensures Count(items[..i + 1], TakesTurn) == Count(items[..i], TakesTurn) + if TakesTurn(items[i]) then 1 else 0
    ensures Count(items[..i + 1], IsCancelled) == Count(items[..i], IsCancelled) + if IsCancelled(items[i]) then 1 else 0
  {
    hide IsRun, IsLarge, IsCancelled, IsRefreshed, IsCurrent, IsFailure, TakesTurn;
    assert items[..i + 1][..i] == items[..i];
  }

  class Server {
    /** The status last published, and all published ones. */
    var status: Status
    ghost var history: seq<Status>
    /** Whether this pass holds the grade slot, and how many times it took and gave it back. */
    var holding: bool
    var taken: nat
    var returned: nat
    /** Work counted active. */
    var active: nat

    ghost predicate Valid()
      reads this
    {
      taken == returned + (if holding then 1 else 0) && AllAccounted(history)
    }

    /** A status is published only while the pass counts as activity. */
    method Save(s: Status)
      requires Valid() && Accounted(s) && active > 0
      modifies this`status, this`history
      ensures Valid() && status == s && history == old(history) + [s]
    {
      status, history := s, history + [s];
    }

    /** autoscan-server/ai_reanalysis.go, lines 127-137: wait for the slot or for cancellation, refresh, give the slot back. */
    method TakeTurn(turn: Turn) returns (cancelled: bool)
      requires Valid() && !holding
      modifies this`holding, this`taken, this`returned
      ensures Valid() && !holding
      ensures cancelled <==> turn.Cancelled?
      ensures taken == old(taken) + if turn.Cancelled? then 0 else 1
    {
      if turn.Cancelled? {
        return true;
      }
      holding, taken := true, taken + 1;
      // The refresh of one object runs here.
      holding, returned := false, returned + 1;
      return false;
    }

    /** One round of the loop at lines 106-148 of autoscan-server/ai_reanalysis.go. */
    method Scan(item: Item, s: Status) returns (t: Status, stop: bool)
      requires Valid() && !holding && active > 0 && s.phase == Running && Accounted(s)
      modifies this`holding, this`taken, this`returned, this`status, this`history
      ensures Valid() && !holding
      ensures taken == old(taken) + if TakesTurn(item) then 1 else 0
      ensures stop <==> Ends(item)
      ensures Adds(s, t, item)
      ensures IsCancelled(item) ==> status == t
      ensures !stop ==> Accounted(t)
    {
      hide IsRunResult;
      t := s;
      if item.ListError? {
        t := t.(failed := t.failed + 1, lastError := item.message);
        return t, true;
      }
      if !IsRunResult(item.rel) {
        return t, false;
      }
      t := t.(scanned := t.scanned + 1);
      if item.size > RefreshProtocol.MAX_BYTES {
        t := t.(failed := t.failed + 1, lastError := TOO_LARGE);
        Save(t);
        return t, false;
      }
      var cancelled := TakeTurn(item.turn);
      if cancelled {
        t := t.(phase := Interrupted);
        Save(t);
        return t, true;
      }
      match item.turn {
        case Failure(message) => t := t.(failed := t.failed + 1, lastError := message);
        case Refreshed => t := t.(updated := t.updated + 1);
        case AlreadyCurrent => t := t.(current := t.current + 1);
      }
      Save(t);
      return t, false;
    }

    /** autoscan-server/ai_reanalysis.go, lines 106-148: the loop over the listing. */
    method ScanAll(items: seq<Item>, start: Status) returns (s: Status)
      requires Valid() && !holding && active > 0 && start == Status(Running, 0, 0, 0, 0, "")
      modifies this`holding, this`taken, this`returned, this`status, this`history
      ensures Valid() && !holding
      ensures Tallies(s, Seen(items)) && taken - old(taken) == Count(Seen(items), TakesTurn)
      ensures s.phase == if Count(Seen(items), IsCancelled) > 0 then Interrupted else Running
      ensures s.phase == Interrupted ==> status == s
    {
      hide IsRunResult, IsRun, IsLarge, IsCancelled, IsRefreshed, IsCurrent, IsFailure, TakesTurn, Adds, Seen, Accounted, AllAccounted;
      s := start;
      NothingSeen(s, items);
      hide Count, LastError, Tallies;
      var i, stop := 0, false;
      while i < |items| && !stop
        invariant 0 <= i <= |items|
        invariant Valid() && !holding
        invariant Tallies(s, items[..i]) && taken - old(taken) == Count(items[..i], TakesTurn)
        invariant Seen(items) == if stop then items[..i] else items[..i] + Seen(items[i..])
        invariant s.phase == if Count(items[..i], IsCancelled) > 0 then Interrupted else Running
        invariant if stop then s.phase == Interrupted ==> status == s else s.phase == Running && Accounted(s)
      {
        SeenStep(items, i);
        ghost var before := s;
        s, stop := Scan(items[i], s);
        TallyStep(before, s, items, i);
        AddsPhase(before, s, items[i]);
        i := i + 1;
      }
      if !stop {
        NothingSeen(s, items);
        assert items[..i] == items;
      }
    }

    /** autoscan-server/ai_reanalysis.go, lines 100-159: `cancelled` says whether the context was done when the listing ended. */
    method Pass(items: seq<Item>, cancelled: bool)
      requires Valid() && !holding
      modifies this
      ensures Valid() && !holding && active == old(active)
      ensures taken - old(taken) == Count(Seen(items), TakesTurn)
      ensures Tallies(status, Seen(items))
      ensures status.phase == if Count(Seen(items), IsCancelled) > 0 || cancelled then Interrupted
                              else if Count(Seen(items), IsFailure) > 0 then Retrying else Complete
    {
      hide IsRunResult, IsRun, IsLarge, IsCancelled, IsRefreshed, IsCurrent, IsFailure, TakesTurn, Count, LastError, Seen;
      active := active + 1;
      var s := Status(Running, 0, 0, 0, 0, "");
      Save(s);
      s := ScanAll(items, s);
      if s.phase == Interrupted {
        active := active - 1;
        return;
      }
      s := s.(phase := if cancelled then Interrupted else if s.failed > 0 then Retrying else Complete);
      Save(s);
      active := active - 1;
    }
  }

  lemma NothingSeen(s: Status, items: seq<Item>)
    ensures s == Status(Running, 0, 0, 0, 0, "") ==> Tallies(s, items[..0]) && Accounted(s)
    ensures Count(items[..0], TakesTurn) == Count(items[..0], IsCancelled) == 0
    ensures Seen(items) == items[..0] + Seen(items[0..])
    ensures items[..|items|] + Seen(items[|items|..]) == items
  {
    hide IsRunResult;
    assert items[0..] == items;
  }

  lemma AddsPhase(s: Status, t: Status, item: Item)
    requires Adds(s, t, item) && s.phase == Running
    ensures t.phase == if IsCancelled(item) then Interrupted else Running
  {
  }

  lemma SeenStep(items: seq<Item>, i: nat)
    requires i < |items|
    ensures items[..i + 1][..i] == items[..i] && items[..i + 1][i] == items[i] && |items[..i + 1]| == i + 1
    ensures Ends(items[i]) ==> items[..i] + Seen(items[i..]) == items[..i + 1]
    ensures !Ends(items[i]) ==> items[..i] + Seen(items[i..]) == items[..i + 1] + Seen(items[i + 1..])
    ensures Ends(items[i]) <==> items[i].ListError? || IsCancelled(items[i])
  {
    hide IsRunResult, IsCancelled;
    assert items[i..][1..] == items[i + 1..];
  }
}
