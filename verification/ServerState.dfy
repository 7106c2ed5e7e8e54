/** The server's shared objects: the progress table and the activity count.  Each method is tied to the step functions of the
    grade queue. */
module ServerState {
  import opened GradeQueue

  class ProgressTracker {
    var entries: Entries

    constructor ()
      ensures entries == map[]
    {
      entries := map[];
    }

    /** progress.go, lines 48-61: raise, store, and evict in any order. */
    method Set(token: string, fraction: real, stage: string, now: nat)
      modifies this
      ensures entries == SetEntry(old(entries), token, fraction, stage, now)
      ensures token in entries && entries[token].stage == stage && entries[token].state == "" && entries[token].updatedAt == now
      ensures entries[token].fraction >= fraction && (token in old(entries) ==> entries[token].fraction >= old(entries)[token].fraction)
      ensures entries[token].fraction == fraction || (token in old(entries) && entries[token].fraction == old(entries)[token].fraction)
    {
      var raised := fraction;
      if token in entries && entries[token].fraction > fraction {
        raised := entries[token].fraction;
      }
      entries := entries[token := Entry(raised, stage, "", "", now)];
      ghost var all := entries;
      var keys := entries.Keys;
      while keys != {}
        invariant keys <= entries.Keys
        invariant entries == map key | key in all && (key in keys || !Expired(all[key], now)) :: all[key]
        decreases |keys|
      {
        var key :| key in keys;
        keys := keys - {key};
        if now - entries[key].updatedAt > ENTRY_TTL {
          entries := entries - {key};
        }
      }
    }

    /** progress.go, lines 63-79: a missing entry counts as an empty one. */
    method Finish(token: string, ok: bool, detail: string, now: nat)
      modifies this
      ensures entries == FinishEntry(old(entries), token, ok, detail, now)
    {
      if token == "" {
        return;
      }
      var entry := Entry(0.0, "", "", "", 0);
      if token in entries {
        entry := entries[token];
      }
      if ok {
        entry := entry.(fraction := 1.0, state := DONE);
      } else {
        entry := entry.(state := FAILED, detail := detail);
      }
      entry := entry.(updatedAt := now);
      entries := entries[token := entry];
    }

    method Drop(token: string)
      modifies this
      ensures entries == old(entries) - {token}
    {
      entries := entries - {token};
    }
  }

  class Activity {
    var active: int
    var lastDone: nat

    constructor (now: nat)
      ensures active == 0 && lastDone == now
    {
      active, lastDone := 0, now;
    }

    method Begin()
      modifies this
      ensures active == old(active) + 1 && lastDone == old(lastDone)
    {
      active := active + 1;
    }

    method End(now: nat)
      modifies this
      ensures active == old(active) - 1 && lastDone == now
    {
      active := active - 1;
      lastDone := now;
    }

    method IdleTime(now: nat) returns (r: int)
      ensures r == IdleFor(active, lastDone, now)
    {
      if active > 0 {
        return 0;
      }
      return now - lastDone;
    }
  }

  /** A reading of the activity at one tick. */
  datatype Reading = Reading(active: int, lastDone: nat, now: nat)

  /** idle.go, lines 54-68: the first tick at which the server has been idle long enough, if there is one. */
  method ExitWhenIdle(readings: seq<Reading>, timeout: int) returns (stopAt: int)
    ensures -1 <= stopAt < |readings|
    ensures forall k :: 0 <= k < (if stopAt < 0 then |readings| else stopAt) ==> IdleFor(readings[k].active, readings[k].lastDone, readings[k].now) < timeout
    ensures stopAt >= 0 ==> IdleFor(readings[stopAt].active, readings[stopAt].lastDone, readings[stopAt].now) >= timeout
    ensures timeout > 0 && stopAt >= 0 ==> readings[stopAt].active <= 0
  {
    for k := 0 to |readings|
      invariant forall j :: 0 <= j < k ==> IdleFor(readings[j].active, readings[j].lastDone, readings[j].now) < timeout
    {
      if IdleFor(readings[k].active, readings[k].lastDone, readings[k].now) >= timeout {
        return k;
      }
    }
    return -1;
  }
}
