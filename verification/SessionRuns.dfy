/** What the session registry guarantees over whole runs. */
module SessionRuns {
  import opened Options
  import opened Runs
  import opened Sessions

  // ---------------------------------------------------------------- runs

  const EMPTY: State := State(map[], map[], map[], map[])

  function Next(st: State, a: Action): Option<State> {
    if Enabled(st, a) then Some(Apply(st, a)) else None
  }

  /** Every state of every run from the empty server satisfies the invariant. */
  lemma InvAlways(actions: seq<Action>, n: nat)
    requires Possible(Next, EMPTY, actions) && n <= |actions|
    ensures Inv(After(Next, EMPTY, actions, n))
  {
    EmptyIsFine();
    hide Apply, Enabled, Inv, Possible, After;
    var among := (a: Action) => true;
    forall st, a | Inv(st) && among(a) && Next(st, a).Some? ensures Inv(Next(st, a).value) {
      StepKeepsInv(st, a);
    }
    AlwaysHolds(Next, Inv, among, EMPTY, actions, n);
  }

  lemma EmptyIsFine()
    ensures Inv(EMPTY)
  {
    hide Apply, Enabled;
  }

  // ---------------------------------------------------------------- what the invariant says

  function LiveSessions(st: State): set<nat> {
    set s | s in st.sessions && Live(st.sessions[s])
  }

  lemma {:induction false} ValuesAreFew(m: map<string, nat>)
    ensures |m.Values| <= |m.Keys|
    decreases |m.Keys|
  {
    if m.Keys != {} {
      var id :| id in m.Keys;
      var rest := m - {id};
      assert rest.Keys == m.Keys - {id};
      ValuesAreFew(rest);
      forall v | v in m.Values ensures v in rest.Values + {m[id]} {
        var k :| k in m && m[k] == v;
        assert k != id ==> k in rest && rest[k] == v;
      }
      assert m.Values == rest.Values + {m[id]};
    } else {
      assert m.Values == {};
    }
  }

  /** Never more than sixteen live sessions, never two for the same id, and each one's pane count is the number of callers
      being served, between zero and its limit. */
  lemma SessionsAreLimited(actions: seq<Action>, n: nat)
    requires Possible(Next, EMPTY, actions) && n <= |actions|
    ensures var st := After(Next, EMPTY, actions, n);
            && |LiveSessions(st)| <= MAX_SESSIONS
            && (forall r, s :: r in LiveSessions(st) && s in LiveSessions(st) && st.sessions[r].id == st.sessions[s].id ==> r == s)
            && (forall s :: s in st.sessions ==>
                  st.sessions[s].panes == |set c | c in st.callers && st.callers[c].place == Serving(s)| <= st.sessions[s].maxPanes)
  {
    InvAlways(actions, n);
    var st := After(Next, EMPTY, actions, n);
    LiveAreRegistered(st);
    forall s | s in st.sessions
      ensures st.sessions[s].panes == |set c | c in st.callers && st.callers[c].place == Serving(s)| <= st.sessions[s].maxPanes
    {
      CountAt(st, s);
      assert PanesOf(st.callers, s) == set c | c in st.callers && st.callers[c].place == Serving(s);
    }
  }

  lemma LiveAreRegistered(st: State)
    requires Inv(st)
    ensures LiveSessions(st) == st.registry.Values && |LiveSessions(st)| <= MAX_SESSIONS
    ensures forall r, s :: r in LiveSessions(st) && s in LiveSessions(st) && st.sessions[r].id == st.sessions[s].id ==> r == s
  {
    hide CallersOk, PanesOk, LingerOk, Live;
    ValuesAreFew(st.registry);
    forall s | s in LiveSessions(st) ensures s in st.registry.Values {
      assert Names(st.registry, st.sessions[s].id, s);
    }
  }

  /** Every caller that attaches attaches to the session registered for the id it asked for, and that session is ready and open. */
  lemma AttachReachesTheRegisteredSession(st: State, c: nat)
    requires Inv(st) && Enabled(st, Attach(c)) && Apply(st, Attach(c)).callers[c].place.Serving?
    ensures var s := Apply(st, Attach(c)).callers[c].place.s;
            && Names(st.registry, st.callers[c].id, s)
            && st.sessions[s].stage == Ready && st.sessions[s].ending == Open && st.sessions[s].panes < st.sessions[s].maxPanes
  {
    hide PanesOk, LingerOk;
    InvAt(st, c, "");
    var s := st.callers[c].place.s;
    assert Live(st.sessions[s]);
  }

  /** An id leaves the registry only through its own session's failure or teardown; it is never handed to another session while it is
      registered. */
  lemma RemovalSparesSuccessors(st: State, a: Action, id: string)
    requires Inv(st) && Enabled(st, a) && id in st.registry
    ensures id in Apply(st, a).registry ==> Apply(st, a).registry[id] == st.registry[id]
    ensures id !in Apply(st, a).registry ==>
              || a == Remove(st.registry[id])
              || (a.Create? && !a.ok && st.callers[a.c].place.s == st.registry[id])
  {
    hide CallersOk, PanesOk, LingerOk, Live, Stop;
    match a {
      case Create(c, ok) => assert Names(st.registry, id, st.registry[id]);
      case Remove(s) => assert Names(st.registry, id, st.registry[id]);
      case _ =>
    }
  }

  /** A caller is refused for the session limit exactly when its id is unknown and sixteen sessions are live. */
  lemma LimitRefusesOnlyStrangers(st: State, c: nat, newSession: nat)
    requires Inv(st) && Enabled(st, Ask(c, newSession))
    ensures Apply(st, Ask(c, newSession)).callers[c].place == Refused(SessionLimit) <==>
            (forall s :: s in LiveSessions(st) ==> st.sessions[s].id != st.callers[c].id) && |st.registry| == MAX_SESSIONS
  {
    hide CallersOk, PanesOk, LingerOk;
    InvAt(st, c, st.callers[c].id);
    LiveAreRegistered(st);
    if st.callers[c].id in st.registry {
      assert st.registry[st.callers[c].id] in LiveSessions(st);
    }
  }

  // ---------------------------------------------------------------- closing is final and happens once

  function Rank(ending: Ending): nat {
    match ending
    case Open => 0
    case Marked => 1
    case Removed => 2
    case Announced => 3
  }

  /** What a step may do to one session's ending and pane count. */
  predicate Advances(before: Session, after: Session, announced: bool) {
    && Rank(before.ending) <= Rank(after.ending)
    && (announced <==> before.ending != Announced && after.ending == Announced)
    && (before.ending != Open ==> after.panes <= before.panes)
  }

  lemma StepOnlyAdvances(st: State, a: Action, s: nat)
    requires Enabled(st, a) && s in st.sessions
    ensures s in Apply(st, a).sessions && Advances(st.sessions[s], Apply(st, a).sessions[s], a == Announce(s))
  {
    hide Stop, Advances, Unregister, DoAsk;
    var ts, after := st.sessions[s], Apply(st, a).sessions[s];
    AdvancesHow(ts, if a.EndPane? then a.newTimer else 0);
    match a {
      case Arrive(c, id, panes) =>
      case Ask(c, newSession) =>
      case Create(c, ok) => assert after == ts || after == ts.(stage := if ok then Started else Failing);
      case OpenBarrier(c) => assert after == ts || after == ts.(stage := if ts.stage == Started then Ready else Failed);
      case Pass(c) =>
      case Attach(c) => assert after == ts || (ts.ending == Open && after == Attached(ts));
      case EndPane(c, newTimer) => assert after == ts || after == Detached(ts, newTimer);
      case Fire(t) =>
      case RunTimer(t) => assert after == ts || (ts.ending == Open && after == ts.(ending := Marked));
      case Mark(r) => assert after == ts || (ts.ending == Open && after == ts.(ending := Marked));
      case Remove(r) => assert after == ts || (ts.ending == Marked && after == ts.(ending := Removed));
      case Announce(r) => assert r != s ==> after == ts;
    }
  }

  lemma AdvancesHow(ts: Session, newTimer: nat)
    ensures Advances(ts, ts, false) && Advances(ts, Detached(ts, newTimer), false)
    ensures forall stage :: Advances(ts, ts.(stage := stage), false)
    ensures ts.ending == Open ==> Advances(ts, Attached(ts), false) && Advances(ts, ts.(ending := Marked), false)
    ensures ts.ending == Marked ==> Advances(ts, ts.(ending := Removed), false)
    ensures ts.ending == Removed ==> Advances(ts, ts.(ending := Announced), true)
  {
  }

  lemma {:induction false} OnlyAdvances(st: State, actions: seq<Action>, m: nat, n: nat, s: nat)
    requires Possible(Next, st, actions) && m <= n <= |actions| && s in After(Next, st, actions, m).sessions
    ensures s in After(Next, st, actions, n).sessions
    ensures Rank(After(Next, st, actions, m).sessions[s].ending) <= Rank(After(Next, st, actions, n).sessions[s].ending)
    decreases n - m
  {
    hide Apply, Enabled, After, Rank;
    if m < n {
      OnlyAdvances(st, actions, m, n - 1, s);
      AfterStep(Next, st, actions, n - 1);
      StepOnlyAdvances(After(Next, st, actions, n - 1), actions[n - 1], s);
    }
  }

  /** Once a session is marked closed it stays closed, and no later step of any run adds a pane to it. */
  lemma ClosedForever(st: State, actions: seq<Action>, m: nat, n: nat, s: nat)
    requires Possible(Next, st, actions) && m <= n < |actions|
    requires s in After(Next, st, actions, m).sessions && After(Next, st, actions, m).sessions[s].ending != Open
    ensures s in After(Next, st, actions, n).sessions && s in After(Next, st, actions, n + 1).sessions
    ensures After(Next, st, actions, n + 1).sessions[s].ending != Open
    ensures After(Next, st, actions, n + 1).sessions[s].panes <= After(Next, st, actions, n).sessions[s].panes
  {
    hide Apply, Enabled, After;
    OnlyAdvances(st, actions, m, n, s);
    AfterStep(Next, st, actions, n);
    StepOnlyAdvances(After(Next, st, actions, n), actions[n], s);
  }

  function Announcements(actions: seq<Action>, s: nat): nat {
    if actions == [] then 0 else (if actions[0] == Announce(s) then 1 else 0) + Announcements(actions[1..], s)
  }

  /** However many timers, watchers and callers try to tear a session down, its `done` channel is closed at most once. */
  lemma {:induction false} TornDownOnce(st: State, actions: seq<Action>, s: nat)
    requires Possible(Next, st, actions)
    ensures Announcements(actions, s) <= if s in st.sessions && st.sessions[s].ending == Announced then 0 else 1
    decreases |actions|
  {
    if actions != [] {
      var next := Apply(st, actions[0]);
      TornDownOnce(next, actions[1..], s);
      if s in st.sessions {
        StepOnlyAdvances(st, actions[0], s);
      }
      hide Apply;
    }
  }

  // ---------------------------------------------------------------- lingering

  /** An abandoned open session always has a timer that ends it: it can fire if it has not, and running it closes the session. */
  lemma AbandonedSessionEnds(st: State, s: nat)
    requires Inv(st) && s in st.sessions && st.sessions[s].ending == Open && st.sessions[s].served && st.sessions[s].panes == 0
    ensures st.sessions[s].lingering.Some?
    ensures var t := st.sessions[s].lingering.value;
            && (Enabled(st, Fire(t)) || Enabled(st, RunTimer(t)))
            && (Enabled(st, Fire(t)) ==> Enabled(Apply(st, Fire(t)), RunTimer(t)))
            && (Enabled(st, RunTimer(t)) ==> Apply(st, RunTimer(t)).sessions[s].ending == Marked)
  {
    hide RegistryOk, CallersOk, PanesOk, LingerOk;
    CountAt(st, s);
  }

  /** A recorded timer never ends a session with panes; whatever ends one while it has panes is a callback that was already
      running when a caller attached. */
  lemma RecordedTimerSparesPanes(st: State, t: nat)
    requires Inv(st) && Enabled(st, RunTimer(t)) && st.sessions[st.timers[t].owner].ending == Open
    ensures st.sessions[st.timers[t].owner].panes > 0 ==> st.sessions[st.timers[t].owner].lingering.None?
    ensures st.sessions[st.timers[t].owner].lingering == Some(t) ==> st.sessions[st.timers[t].owner].panes == 0
  {
    hide RegistryOk, CallersOk, PanesOk, LingerOk;
    CountAt(st, st.timers[t].owner);
  }

  /** Attaching cancels the lingering timer for good exactly when the timer has not fired yet. */
  lemma AttachCancelsUnlessFired(st: State, c: nat, t: nat)
    requires Inv(st) && Enabled(st, Attach(c)) && Apply(st, Attach(c)).callers[c].place.Serving?
    requires st.sessions[st.callers[c].place.s].lingering == Some(t)
    ensures Enabled(Apply(st, Attach(c)), RunTimer(t)) <==> st.timers[t].phase == Fired
    ensures Apply(st, Attach(c)).timers[t].phase == (if st.timers[t].phase == Fired then Fired else Stopped)
  {
    hide RegistryOk, CallersOk, PanesOk, LingerOk;
    CountAt(st, st.callers[c].place.s);
  }

  /** A caller that finds its session closed asks again; it is sent to the very same session exactly while the teardown has not yet
      taken that session out of the registry, and is then refused although a new session could have been made. */
  lemma RetryMeetsTheSameSession(st: State, c: nat, newSession: nat)
    requires Inv(st) && Enabled(st, Attach(c)) && st.callers[c].place.attempt == 0 && newSession !in st.sessions
    requires st.sessions[st.callers[c].place.s].ending != Open
    ensures var s, again := st.callers[c].place.s, Apply(st, Attach(c));
            && again.callers[c].place == Asking(1) && Enabled(again, Ask(c, newSession))
            && (Apply(again, Ask(c, newSession)).callers[c].place == Waiting(s, 1) <==> st.sessions[s].ending == Marked)
  {
    hide PanesOk, LingerOk;
    InvAt(st, c, st.callers[c].id);
    assert Live(st.sessions[st.callers[c].place.s]) <==> st.sessions[st.callers[c].place.s].ending == Marked;
  }

  // ---------------------------------------------------------------- the race that remains

  ghost predicate Reachable(st: State) {
    exists actions: seq<Action> :: Possible(Next, EMPTY, actions) && After(Next, EMPTY, actions, |actions|) == st
  }

  lemma ReachNext(st: State, a: Action, next: State)
    requires Reachable(st) && Enabled(st, a) && Apply(st, a) == next
    ensures Reachable(next)
  {
    hide Apply, Enabled, Possible, After;
    var actions :| Possible(Next, EMPTY, actions) && After(Next, EMPTY, actions, |actions|) == st;
    Append(Next, EMPTY, actions, a);
  }

  lemma ReachEmpty()
    ensures Reachable(EMPTY)
  {
    var none: seq<Action> := [];
    assert Possible(Next, EMPTY, none) && After(Next, EMPTY, none, |none|) == EMPTY;
  }

  /** One session "a" of one pane, and one timer. */
  function One(ts: Session, timers: Timers, callers: Callers): State {
    State(map["a" := 0], map[0 := ts], timers, callers)
  }

  const READY: Session := Session("a", 1, Ready, Open, 0, None, false)

  lemma ReadyIsReachable()
    ensures Reachable(One(READY, map[], map[0 := Caller("a", 1, Attaching(0, 0))]))
  {
    hide Reachable;
    var s1 := EMPTY.(callers := map[0 := Caller("a", 1, Asking(0))]);
    var making := map[0 := Caller("a", 1, Making(0, 0))];
    ReachEmpty();
    ReachNext(EMPTY, Arrive(0, "a", 1), s1);
    ReachNext(s1, Ask(0, 0), One(READY.(stage := Creating), map[], making));
    ReachNext(One(READY.(stage := Creating), map[], making), Create(0, true), One(READY.(stage := Started), map[], making));
    ReachNext(One(READY.(stage := Started), map[], making), OpenBarrier(0), One(READY, map[], map[0 := Caller("a", 1, Attaching(0, 0))]));
  }

  /** The only caller has left and the timer has fired. */
  lemma AbandonedIsReachable()
    ensures Reachable(One(READY.(served := true, lingering := Some(0)), map[0 := Timer(0, Fired)], map[0 := Caller("a", 1, Left)]))
  {
    hide Reachable;
    ReadyIsReachable();
    var attaching := One(READY, map[], map[0 := Caller("a", 1, Attaching(0, 0))]);
    var serving := One(READY.(panes := 1, served := true), map[], map[0 := Caller("a", 1, Serving(0))]);
    var alone, left := READY.(served := true, lingering := Some(0)), map[0 := Caller("a", 1, Left)];
    ReachNext(attaching, Attach(0), serving);
    ReachNext(serving, EndPane(0, 0), One(alone, map[0 := Timer(0, Pending)], left));
    ReachNext(One(alone, map[0 := Timer(0, Pending)], left), Fire(0), One(alone, map[0 := Timer(0, Fired)], left));
  }

  function Second(place: Place): Callers {
    map[0 := Caller("a", 1, Left), 1 := Caller("a", 1, place)]
  }

  lemma RejoinedIsReachable()
    ensures Reachable(One(READY.(panes := 1, served := true), map[0 := Timer(0, Fired)], Second(Serving(0))))
  {
    hide Reachable;
    AbandonedIsReachable();
    var alone, fired := READY.(served := true, lingering := Some(0)), map[0 := Timer(0, Fired)];
    ReachNext(One(alone, fired, map[0 := Caller("a", 1, Left)]), Arrive(1, "a", 1), One(alone, fired, Second(Asking(0))));
    ReachNext(One(alone, fired, Second(Asking(0))), Ask(1, 1), One(alone, fired, Second(Waiting(0, 0))));
    ReachNext(One(alone, fired, Second(Waiting(0, 0))), Pass(1), One(alone, fired, Second(Attaching(0, 0))));
    ReachNext(One(alone, fired, Second(Attaching(0, 0))), Attach(1), One(READY.(panes := 1, served := true), fired, Second(Serving(0))));
  }

  /** A callback that has already fired can end a session that a caller has just joined: there is a run from the empty server after which
      the session is closed while its one caller is still being served. */
  lemma FiredTimerCanEndAnOccupiedSession()
    ensures exists st :: Reachable(st) && Enabled(st, RunTimer(0)) && st.timers[0].owner == 0
              && st.sessions[0].ending == Open && st.sessions[0].panes == 1 && PanesOf(st.callers, 0) == {1}
              && Apply(st, RunTimer(0)).sessions[0].ending == Marked
  {
    hide Reachable;
    RejoinedIsReachable();
    var st := One(READY.(panes := 1, served := true), map[0 := Timer(0, Fired)], Second(Serving(0)));
    assert PanesOf(st.callers, 0) == {1};
  }
}
