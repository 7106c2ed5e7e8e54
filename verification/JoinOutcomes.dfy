/** What becomes of a caller of a session, in every state and over every run. */
module JoinOutcomes {
  import opened Options
  import opened Runs
  import opened Sessions
  import opened SessionRuns

  /** Everything but this caller's place is as before. */
  predicate OnlyMoves(before: State, after: State, c: nat) {
    && after.registry == before.registry && after.sessions == before.sessions && after.timers == before.timers
    && c in before.callers && c in after.callers && after.callers == before.callers[c := before.callers[c].(place := after.callers[c].place)]
  }

  /** A caller behind the barrier joins exactly when its session is open and fewer callers than its limit are being served; it is refused for the
      limit exactly when the session is open and full; and at a closed session it asks once more, or is told so the second time. */
  lemma AttachOutcome(st: State, c: nat)
    requires Inv(st) && Enabled(st, Attach(c))
    ensures var s, again, after := st.callers[c].place.s, st.callers[c].place.attempt, Apply(st, Attach(c));
            var open, served, limit := st.sessions[s].ending == Open, |PanesOf(st.callers, s)|, st.sessions[s].maxPanes;
            && (after.callers[c].place == Serving(s) <==> open && served < limit)
            && (after.callers[c].place == Refused(PaneLimit) <==> open && served == limit)
            && (after.callers[c].place == Asking(1) <==> !open && again == 0)
            && (after.callers[c].place == Refused(SessionClosed) <==> !open && again == 1)
            && (if open && served < limit then PanesOf(after.callers, s) == PanesOf(st.callers, s) + {c} else OnlyMoves(st, after, c))
  {
    hide RegistryOk, LingerOk;
    var s := st.callers[c].place.s;
    InvAt(st, c, "");
    CountAt(st, s);
  }

  /** A caller that waits for another's creation gets to attach exactly when it succeeded, and is refused exactly when it failed. */
  lemma PassOutcome(st: State, c: nat)
    requires Inv(st) && Enabled(st, Pass(c))
    ensures var s, again, after := st.callers[c].place.s, st.callers[c].place.attempt, Apply(st, Pass(c));
            && OnlyMoves(st, after, c)
            && (after.callers[c].place == Attaching(s, again) <==> st.sessions[s].stage == Ready)
            && (after.callers[c].place == Refused(CreateFailed) <==> st.sessions[s].stage == Failed)
  {
    hide RegistryOk, CallersOk, PanesOk, LingerOk;
  }

  /** The creator opens the barrier and goes on itself exactly when its creation succeeded, and otherwise reports the failure. */
  lemma BarrierOutcome(st: State, c: nat)
    requires Inv(st) && Enabled(st, OpenBarrier(c))
    ensures var s, again, after := st.callers[c].place.s, st.callers[c].place.attempt, Apply(st, OpenBarrier(c));
            && (after.callers[c].place == Attaching(s, again) <==> st.sessions[s].stage == Started)
            && (after.callers[c].place == Refused(CreateFailed) <==> st.sessions[s].stage == Failing)
            && after.sessions == st.sessions[s := st.sessions[s].(stage := if st.sessions[s].stage == Started then Ready else Failed)]
            && after.registry == st.registry && after.timers == st.timers
  {
    hide RegistryOk, CallersOk, PanesOk, LingerOk;
  }

  /** Who asks for an id waits for the live session of that id if there is one, makes a new one if there is room, and is refused otherwise. */
  lemma AskOutcome(st: State, c: nat, newSession: nat)
    requires Inv(st) && Enabled(st, Ask(c, newSession))
    ensures var id, panes, attempt := st.callers[c].id, st.callers[c].panes, st.callers[c].place.attempt;
            var after := Apply(st, Ask(c, newSession));
            && (forall s :: after.callers[c].place == Waiting(s, attempt) <==> s in LiveSessions(st) && st.sessions[s].id == id)
            && (after.callers[c].place == Making(newSession, attempt) <==>
                  (forall s :: s in LiveSessions(st) ==> st.sessions[s].id != id) && |st.registry| < 16)
            && (after.callers[c].place == Refused(SessionLimit) <==>
                  (forall s :: s in LiveSessions(st) ==> st.sessions[s].id != id) && |st.registry| == 16)
            && (if after.callers[c].place.Making?
                then after.sessions == st.sessions[newSession := Session(id, panes, Creating, Open, 0, None, false)] && after.registry == st.registry[id := newSession]
                else OnlyMoves(st, after, c))
  {
    hide CallersOk, PanesOk, LingerOk;
    InvAt(st, c, st.callers[c].id);
    LiveAreRegistered(st);
    if st.callers[c].id in st.registry {
      assert st.registry[st.callers[c].id] in LiveSessions(st);
    }
  }

  // ---------------------------------------------------------------- over whole runs

  /** Attaching at any point of any run from the empty server. */
  lemma AttachOutcomeInRun(actions: seq<Action>, n: nat, c: nat)
    requires Possible(Next, EMPTY, actions) && n < |actions| && actions[n] == Attach(c)
    ensures var st, after := After(Next, EMPTY, actions, n), After(Next, EMPTY, actions, n + 1);
            && c in st.callers && st.callers[c].place.Attaching? && c in after.callers && st.callers[c].place.s in st.sessions
            && var s := st.callers[c].place.s;
               var open, served, limit := st.sessions[s].ending == Open, |PanesOf(st.callers, s)|, st.sessions[s].maxPanes;
               && (after.callers[c].place == Serving(s) <==> open && served < limit)
               && (after.callers[c].place == Refused(PaneLimit) <==> open && served == limit)
               && (after.callers[c].place in {Asking(1), Refused(SessionClosed)} <==> !open)
  {
    var st := After(Next, EMPTY, actions, n);
    InvAlways(actions, n);
    AfterStep(Next, EMPTY, actions, n);
    assert Enabled(st, Attach(c));
    hide Inv, After, Possible, PanesOf;
    AttachOutcome(st, c);
    AttachingIsInRange(st, c);
  }

  lemma AttachingIsInRange(st: State, c: nat)
    requires Inv(st) && Enabled(st, Attach(c))
    ensures st.callers[c].place.attempt <= 1
  {
    hide RegistryOk, PanesOk, LingerOk;
    InvAt(st, c, "");
  }

  predicate Broken(st: State, s: nat) {
    s in st.sessions && st.sessions[s].stage in {Failing, Failed}
  }

  lemma BrokenStays(st: State, a: Action, s: nat)
    requires Inv(st) && Enabled(st, a) && Broken(st, s)
    ensures Broken(Apply(st, a), s)
  {
    hide RegistryOk, CallersOk, PanesOk, LingerOk, Stop, Unregister;
  }

  lemma {:induction false} BrokenForever(actions: seq<Action>, m: nat, n: nat, s: nat)
    requires Possible(Next, EMPTY, actions) && m <= n <= |actions| && Broken(After(Next, EMPTY, actions, m), s)
    ensures Broken(After(Next, EMPTY, actions, n), s)
    decreases n - m
  {
    hide Apply, Enabled, After, Broken, Inv;
    if m < n {
      BrokenForever(actions, m, n - 1, s);
      InvAlways(actions, n - 1);
      AfterStep(Next, EMPTY, actions, n - 1);
      BrokenStays(After(Next, EMPTY, actions, n - 1), actions[n - 1], s);
    }
  }

  lemma FailedIsBroken(actions: seq<Action>, m: nat, n: nat, c: nat)
    requires Possible(Next, EMPTY, actions) && m < n <= |actions| && actions[m] == Create(c, false)
    ensures c in After(Next, EMPTY, actions, m).callers && After(Next, EMPTY, actions, m).callers[c].place.Making?
    ensures Broken(After(Next, EMPTY, actions, n), After(Next, EMPTY, actions, m).callers[c].place.s)
  {
    var before := After(Next, EMPTY, actions, m);
    AfterStep(Next, EMPTY, actions, m);
    assert Enabled(before, Create(c, false));
    assert Broken(After(Next, EMPTY, actions, m + 1), before.callers[c].place.s);
    BrokenForever(actions, m + 1, n, before.callers[c].place.s);
  }

  /** A session whose creation failed never serves anybody: at no later point of the run is it live, attached to or about to be. */
  lemma FailedCreationServesNobody(actions: seq<Action>, m: nat, n: nat, c: nat, d: nat)
    requires Possible(Next, EMPTY, actions) && m < n <= |actions| && actions[m] == Create(c, false)
    ensures c in After(Next, EMPTY, actions, m).callers && After(Next, EMPTY, actions, m).callers[c].place.Making?
    ensures var s, st := After(Next, EMPTY, actions, m).callers[c].place.s, After(Next, EMPTY, actions, n);
            && s in st.sessions && s !in LiveSessions(st) && st.sessions[s].panes == 0
            && (d in st.callers ==> st.callers[d].place != Serving(s) && !(st.callers[d].place.Attaching? && st.callers[d].place.s == s))
  {
    hide After, Possible, Inv, LiveSessions;
    FailedIsBroken(actions, m, n, c);
    InvAlways(actions, n);
    BrokenServesNobody(After(Next, EMPTY, actions, n), After(Next, EMPTY, actions, m).callers[c].place.s, d);
  }

  /** And whoever gets past the barrier of such a session is told that the creation failed. */
  lemma FailedCreationIsTold(actions: seq<Action>, m: nat, n: nat, c: nat, d: nat)
    requires Possible(Next, EMPTY, actions) && m < n < |actions| && actions[m] == Create(c, false) && actions[n] in {Pass(d), OpenBarrier(d)}
    ensures c in After(Next, EMPTY, actions, m).callers && After(Next, EMPTY, actions, m).callers[c].place.Making?
    ensures var st, after := After(Next, EMPTY, actions, n), After(Next, EMPTY, actions, n + 1);
            && d in st.callers && (st.callers[d].place.Waiting? || st.callers[d].place.Making?) && d in after.callers
            && (st.callers[d].place.s == After(Next, EMPTY, actions, m).callers[c].place.s ==> after.callers[d].place == Refused(CreateFailed))
  {
    hide After, Possible, Inv;
    FailedIsBroken(actions, m, n, c);
    AfterStep(Next, EMPTY, actions, n);
  }

  lemma BrokenServesNobody(st: State, s: nat, d: nat)
    requires Inv(st) && Broken(st, s)
    ensures s !in LiveSessions(st) && st.sessions[s].panes == 0
    ensures d in st.callers ==> st.callers[d].place != Serving(s) && !(st.callers[d].place.Attaching? && st.callers[d].place.s == s)
  {
    hide RegistryOk, LingerOk;
    CountAt(st, s);
    if d in st.callers {
      InvAt(st, d, "");
    }
    forall c ensures c !in PanesOf(st.callers, s) {
      InvAt(st, c, "");
    }
    assert PanesOf(st.callers, s) == {};
  }
}
