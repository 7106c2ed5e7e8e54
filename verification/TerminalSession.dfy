/** The session object, its timers, its pane and the registry.  Each method is tied to the atomic step that it carries out, so
    that what is proved about whole runs is about this code. */
module TerminalSession {
  import opened Options
  import S = Sessions

  class Clock {
    var timers: S.Timers
    var next: nat

    ghost predicate Valid()
      reads this
    {
      forall t :: t in timers ==> t < next
    }

    constructor ()
      ensures Valid() && timers == map[]
    {
      timers, next := map[], 0;
    }

    method AfterFunc(owner: nat) returns (t: nat)
      requires Valid()
      modifies this
      ensures Valid() && t !in old(timers) && timers == old(timers)[t := S.Timer(owner, S.Pending)]
    {
      t := next;
      timers, next := timers[t := S.Timer(owner, S.Pending)], next + 1;
    }

    /** A timer that has fired is past stopping. */
    method Stop(t: nat)
      requires Valid() && t in timers
      modifies this`timers
      ensures Valid() && timers == S.Stop(old(timers), Some(t))
    {
      if timers[t].phase == S.Pending {
        timers := timers[t := timers[t].(phase := S.Stopped)];
      }
    }
  }

  class Session {
    const number: nat
    const id: string
    const maxPanes: nat
    const clock: Clock
    var stage: S.Stage
    var ending: S.Ending
    var panes: int
    var lingering: Option<nat>
    var reason: string
    ghost var served: bool

    constructor (number: nat, id: string, maxPanes: nat, clock: Clock)
      ensures this.number == number && this.clock == clock
      ensures View() == S.Session(id, maxPanes, S.Creating, S.Open, 0, None, false)
    {
      this.number, this.id, this.maxPanes, this.clock := number, id, maxPanes, clock;
      stage, ending, panes, lingering, reason, served := S.Creating, S.Open, 0, None, "", false;
    }

    ghost function View(): S.Session
      reads this
    {
      S.Session(id, maxPanes, stage, ending, panes, lingering, served)
    }

    ghost predicate Valid()
      reads this, clock
    {
      clock.Valid() && (lingering.Some? ==> lingering.value in clock.timers)
    }

    /** session.go, lines 265-280. */
    method Attach() returns (problem: Option<S.Problem>)
      requires Valid()
      modifies this, clock`timers
      ensures Valid() && problem == S.AttachProblem(old(View()))
      ensures problem.None? ==> View() == S.Attached(old(View())) && clock.timers == S.Stop(old(clock.timers), old(lingering))
      ensures problem.Some? ==> View() == old(View()) && clock.timers == old(clock.timers)
      ensures problem.None? <==> old(ending) == S.Open && old(panes) < maxPanes
      ensures problem == Some(S.PaneLimit) <==> old(ending) == S.Open && old(panes) >= maxPanes
      ensures problem == Some(S.SessionClosed) <==> old(ending) != S.Open
      ensures panes == old(panes) + if problem.None? then 1 else 0
    {
      if ending != S.Open {
        return Some(S.SessionClosed);
      }
      if panes >= maxPanes {
        return Some(S.PaneLimit);
      }
      panes, served := panes + 1, true;
      if lingering.Some? {
        clock.Stop(lingering.value);
        lingering := None;
      }
      return None;
    }

    /** session.go, lines 282-291. */
    method Detach()
      requires Valid()
      modifies this, clock
      ensures Valid()
      ensures exists t :: t !in old(clock.timers) && View() == S.Detached(old(View()), t) &&
                clock.timers == if S.StartsLingering(old(View())) then old(clock.timers)[t := S.Timer(number, S.Pending)] else old(clock.timers)
    {
      panes := panes - 1;
      if panes <= 0 && ending == S.Open && lingering == None {
        var t := clock.AfterFunc(number);
        lingering := Some(t);
      } else {
        assert clock.next !in clock.timers;
      }
    }

    /** session.go, lines 309-316: what the teardown does once, whoever asks for it. */
    method MarkClosed(why: string) returns (first: bool)
      requires Valid()
      modifies this, clock`timers
      ensures Valid() && (first <==> old(ending) == S.Open)
      ensures first ==> View() == old(View()).(ending := S.Marked) && reason == why && clock.timers == S.Stop(old(clock.timers), old(lingering))
      ensures !first ==> View() == old(View()) && reason == old(reason) && clock.timers == old(clock.timers)
    {
      if ending != S.Open {
        return false;
      }
      ending, reason := S.Marked, why;
      if lingering.Some? {
        clock.Stop(lingering.value);
      }
      return true;
    }
  }

  /** One served pane: whichever of its watchers finishes first detaches, and only that one. */
  class Pane {
    const session: Session
    var finished: bool

    constructor (session: Session)
      ensures this.session == session && !finished
    {
      this.session, finished := session, false;
    }

    /** pane.go, lines 36-45. */
    method Finish()
      requires session.Valid()
      modifies this, session, session.clock
      ensures session.Valid() && finished
      ensures session.panes == old(session.panes) - if old(finished) then 0 else 1
      ensures old(finished) ==> session.View() == old(session.View()) && session.clock.timers == old(session.clock.timers)
    {
      if !finished {
        finished := true;
        session.Detach();
      }
    }
  }

  class Registry {
    var m: map<string, Session>
    var made: nat
    const clock: Clock

    constructor (clock: Clock)
      ensures m == map[] && this.clock == clock
    {
      m, made, this.clock := map[], 0, clock;
    }

    /** session.go, lines 100-120. */
    method GetOrCreate(id: string, maxPanes: nat) returns (ts: Session?, creator: bool)
      requires |m| <= S.MAX_SESSIONS
      modifies this
      ensures |m| <= S.MAX_SESSIONS
      ensures id in old(m) ==> ts == old(m)[id] && !creator && m == old(m)
      ensures id !in old(m) && |old(m)| == S.MAX_SESSIONS ==> ts == null && !creator && m == old(m)
      ensures id !in old(m) && |old(m)| < S.MAX_SESSIONS ==>
                ts != null && fresh(ts) && creator && m == old(m)[id := ts]
                && ts.View() == S.Session(id, maxPanes, S.Creating, S.Open, 0, None, false)
    {
      if id in m {
        return m[id], false;
      }
      if |m| >= S.MAX_SESSIONS {
        return null, false;
      }
      ts := new Session(made, id, maxPanes, clock);
      assert m[id := ts].Keys == m.Keys + {id};
      m, made := m[id := ts], made + 1;
      return ts, true;
    }

    /** session.go, lines 159-163 and 324-328: only this very session is taken out, never a successor under the same id. */
    method Delete(ts: Session)
      modifies this`m
      ensures forall id :: id in m <==> id in old(m) && !(id == ts.id && old(m)[id] == ts)
      ensures forall id :: id in m ==> m[id] == old(m)[id]
    {
      if ts.id in m && m[ts.id] == ts {
        m := m - {ts.id};
      }
    }
  }
}
