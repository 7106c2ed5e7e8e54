/** Terminal sessions as atomic lock-protected steps: a registry, callers that join, lingering timers, and one-shot teardown.
    A session is named by a number that is never used again, so that a successor under the same id is a different session;
    a timer that has fired can no longer be stopped. */
module Sessions {
  import opened Options

  const MAX_SESSIONS: nat := 16
  const MAX_PANES_PER_SESSION: nat := 4

  datatype Problem = SessionLimit | PaneLimit | SessionClosed | CreateFailed

  /** How far the creator has come; `ready` is closed in the last two. */
  datatype Stage = Creating | Started | Failing | Ready | Failed

  /** How far the teardown has come: marked closed, taken out of the registry, `done` closed. */
  datatype Ending = Open | Marked | Removed | Announced

  /** `served` remembers that some caller ever attached; `lingering` is the recorded timer. */
  datatype Session = Session(id: string, maxPanes: nat, stage: Stage, ending: Ending, panes: int, lingering: Option<nat>, served: bool)

  /** Stopping a timer that has fired does not cancel its callback. */
  datatype TimerPhase = Pending | Fired | Stopped | Ran

  datatype Timer = Timer(owner: nat, phase: TimerPhase)

  type Timers = map<nat, Timer>

  /** Where one caller of `Join` stands, and then its pane. */
  datatype Place = Asking(attempt: nat)
                 | Making(s: nat, attempt: nat)
                 | Waiting(s: nat, attempt: nat)
                 | Attaching(s: nat, attempt: nat)
                 | Serving(s: nat)
                 | Refused(problem: Problem)
                 | Left

  datatype Caller = Caller(id: string, panes: nat, place: Place)

  datatype State = State(registry: map<string, nat>, sessions: map<nat, Session>, timers: Timers, callers: map<nat, Caller>)

  datatype Action = Arrive(c: nat, id: string, panes: int)
                  | Ask(c: nat, newSession: nat)
                  | Create(c: nat, ok: bool)
                  | OpenBarrier(c: nat)
                  | Pass(c: nat)
                  | Attach(c: nat)
                  | EndPane(c: nat, newTimer: nat)
                  | Fire(t: nat)
                  | RunTimer(t: nat)
                  | Mark(s: nat)
                  | Remove(s: nat)
                  | Announce(s: nat)

  // ---------------------------------------------------------------- one session

  function ClampPanes(panes: int): (n: nat)
    ensures 1 <= n <= 4 && (1 <= panes <= 4 ==> n == panes) && (panes < 1 ==> n == 1) && (panes > 4 ==> n == 4)
  {
    if panes < 1 then 1 else if panes > MAX_PANES_PER_SESSION then MAX_PANES_PER_SESSION else panes
  }

  function Stop(timers: Timers, t: Option<nat>): Timers {
    if t.Some? && t.value in timers && timers[t.value].phase.Pending?
    then timers[t.value := timers[t.value].(phase := Stopped)] else timers
  }

  function AttachProblem(ts: Session): Option<Problem> {
    if ts.ending != Open then Some(SessionClosed)
    else if ts.panes >= ts.maxPanes then Some(PaneLimit)
    else None
  }

  function Attached(ts: Session): Session {
    ts.(panes := ts.panes + 1, lingering := None, served := true)
  }

  predicate StartsLingering(ts: Session) {
    ts.panes - 1 <= 0 && ts.ending == Open && ts.lingering == None
  }

  function Detached(ts: Session, newTimer: nat): Session {
    ts.(panes := ts.panes - 1, lingering := if StartsLingering(ts) then Some(newTimer) else ts.lingering)
  }

  // ---------------------------------------------------------------- steps

  predicate Enabled(st: State, a: Action) {
    match a
    case Arrive(c, id, panes) => c !in st.callers
    case Ask(c, newSession) => c in st.callers && st.callers[c].place.Asking? && newSession !in st.sessions
    case Create(c, ok) =>
      c in st.callers && st.callers[c].place.Making? && st.callers[c].place.s in st.sessions && st.sessions[st.callers[c].place.s].stage == Creating
    case OpenBarrier(c) =>
      c in st.callers && st.callers[c].place.Making? && st.callers[c].place.s in st.sessions && st.sessions[st.callers[c].place.s].stage in {Started, Failing}
    case Pass(c) =>
      c in st.callers && st.callers[c].place.Waiting? && st.callers[c].place.s in st.sessions && st.sessions[st.callers[c].place.s].stage in {Ready, Failed}
    case Attach(c) => c in st.callers && st.callers[c].place.Attaching? && st.callers[c].place.s in st.sessions
    case EndPane(c, newTimer) => c in st.callers && st.callers[c].place.Serving? && st.callers[c].place.s in st.sessions && newTimer !in st.timers
    case Fire(t) => t in st.timers && st.timers[t].phase.Pending?
    case RunTimer(t) => t in st.timers && st.timers[t].phase.Fired? && st.timers[t].owner in st.sessions
    case Mark(s) => s in st.sessions && st.sessions[s].ending == Open
    case Remove(s) => s in st.sessions && st.sessions[s].ending == Marked
    case Announce(s) => s in st.sessions && st.sessions[s].ending == Removed
  }

  function Move(st: State, c: nat, place: Place): State
    requires c in st.callers
  {
    st.(callers := st.callers[c := st.callers[c].(place := place)])
  }

  function SetSession(st: State, s: nat, ts: Session): State {
    st.(sessions := st.sessions[s := ts])
  }

  /** Only if the registry still names this very session. */
  function Unregister(st: State, s: nat): (r: State)
    requires s in st.sessions
    ensures r.sessions == st.sessions && r.timers == st.timers && r.callers == st.callers
  {
    var id := st.sessions[s].id;
    if id in st.registry && st.registry[id] == s then st.(registry := st.registry - {id}) else st
  }

  function DoAsk(st: State, c: nat, newSession: nat): (r: State)
    requires c in st.callers && st.callers[c].place.Asking?
    ensures forall s :: s in st.sessions && s != newSession ==> s in r.sessions && r.sessions[s] == st.sessions[s]
  {
    var caller := st.callers[c];
    var attempt := caller.place.attempt;
    if caller.id in st.registry then Move(st, c, Waiting(st.registry[caller.id], attempt))
    else if |st.registry| >= MAX_SESSIONS then Move(st, c, Refused(SessionLimit))
    else
      var ts := Session(caller.id, caller.panes, Creating, Open, 0, None, false);
      Move(SetSession(st.(registry := st.registry[caller.id := newSession]), newSession, ts), c, Making(newSession, attempt))
  }

  /** The teardown's first locked section: closed, and the recorded timer stopped. */
  function DoMark(st: State, s: nat): State
    requires s in st.sessions
  {
    SetSession(st, s, st.sessions[s].(ending := Marked)).(timers := Stop(st.timers, st.sessions[s].lingering))
  }

  function DoAttach(st: State, c: nat): State
    requires c in st.callers && st.callers[c].place.Attaching? && st.callers[c].place.s in st.sessions
  {
    var s, attempt := st.callers[c].place.s, st.callers[c].place.attempt;
    var ts := st.sessions[s];
    match AttachProblem(ts)
    case None => Move(SetSession(st, s, Attached(ts)).(timers := Stop(st.timers, ts.lingering)), c, Serving(s))
    case Some(PaneLimit) => Move(st, c, Refused(PaneLimit))
    case Some(_) => Move(st, c, if attempt == 0 then Asking(1) else Refused(SessionClosed))
  }

  function DoEndPane(st: State, c: nat, newTimer: nat): State
    requires c in st.callers && st.callers[c].place.Serving? && st.callers[c].place.s in st.sessions
  {
    var s := st.callers[c].place.s;
    var ts := st.sessions[s];
    var timers := if StartsLingering(ts) then st.timers[newTimer := Timer(s, Pending)] else st.timers;
    Move(SetSession(st, s, Detached(ts, newTimer)).(timers := timers), c, Left)
  }

  function Apply(st: State, a: Action): State
    requires Enabled(st, a)
  {
    match a
    case Arrive(c, id, panes) => st.(callers := st.callers[c := Caller(id, ClampPanes(panes), Asking(0))])
    case Ask(c, newSession) => DoAsk(st, c, newSession)
    case Create(c, ok) =>
      var s := st.callers[c].place.s;
      if ok then SetSession(st, s, st.sessions[s].(stage := Started))
      else SetSession(Unregister(st, s), s, st.sessions[s].(stage := Failing))
    case OpenBarrier(c) =>
      var s, attempt := st.callers[c].place.s, st.callers[c].place.attempt;
      if st.sessions[s].stage == Started
      then Move(SetSession(st, s, st.sessions[s].(stage := Ready)), c, Attaching(s, attempt))
      else Move(SetSession(st, s, st.sessions[s].(stage := Failed)), c, Refused(CreateFailed))
    case Pass(c) =>
      var s, attempt := st.callers[c].place.s, st.callers[c].place.attempt;
      Move(st, c, if st.sessions[s].stage == Ready then Attaching(s, attempt) else Refused(CreateFailed))
    case Attach(c) => DoAttach(st, c)
    case EndPane(c, newTimer) => DoEndPane(st, c, newTimer)
    case Fire(t) => st.(timers := st.timers[t := st.timers[t].(phase := Fired)])
    case RunTimer(t) =>
      var ran := st.(timers := st.timers[t := st.timers[t].(phase := Ran)]);
      var s := st.timers[t].owner;
      if st.sessions[s].ending == Open then DoMark(ran, s) else ran
    case Mark(s) => DoMark(st, s)
    case Remove(s) => SetSession(Unregister(st, s), s, st.sessions[s].(ending := Removed))
    case Announce(s) => SetSession(st, s, st.sessions[s].(ending := Announced))
  }

  // ---------------------------------------------------------------- the invariant

  type Sessions = map<nat, Session>
  type Registry = map<string, nat>
  type Callers = map<nat, Caller>

  /** Neither failed nor taken out by its teardown. */
  predicate Live(ts: Session) {
    ts.stage !in {Failing, Failed} && ts.ending in {Open, Marked}
  }

  predicate Names(registry: Registry, id: string, s: nat) {
    id in registry && registry[id] == s
  }

  /** The registry names exactly the live sessions, each under its own id. */
  predicate RegistryOk(registry: Registry, sessions: Sessions) {
    && |registry| <= MAX_SESSIONS
    && (forall id :: id in registry ==> registry[id] in sessions && sessions[registry[id]].id == id && Live(sessions[registry[id]]))
    && (forall s :: s in sessions && Live(sessions[s]) ==> Names(registry, sessions[s].id, s))
  }

  predicate PlaceOk(sessions: Sessions, caller: Caller) {
    match caller.place
    case Asking(attempt) => attempt <= 1
    case Making(s, attempt) => attempt <= 1 && s in sessions && sessions[s].id == caller.id && sessions[s].stage in {Creating, Started, Failing}
    case Waiting(s, attempt) => attempt <= 1 && s in sessions && sessions[s].id == caller.id
    case Attaching(s, attempt) => attempt <= 1 && s in sessions && sessions[s].id == caller.id && sessions[s].stage == Ready
    case Serving(s) => s in sessions && sessions[s].id == caller.id && sessions[s].stage == Ready
    case _ => true
  }

  predicate BothMake(c: Caller, d: Caller) {
    c.place.Making? && d.place.Making? && c.place.s == d.place.s
  }

  predicate CallersOk(sessions: Sessions, callers: Callers) {
    && (forall c :: c in callers ==> PlaceOk(sessions, callers[c]))
    && (forall c, d :: c in callers && d in callers && BothMake(callers[c], callers[d]) ==> c == d)
  }

  function PanesOf(callers: Callers, s: nat): set<nat> {
    set c | c in callers && callers[c].place == Serving(s)
  }

  /** The pane count is the number of callers that have joined and not left. */
  predicate CountOk(ts: Session, serving: set<nat>) {
    ts.panes == |serving| && ts.panes <= ts.maxPanes && (ts.panes > 0 ==> ts.served)
  }

  predicate PanesOk(sessions: Sessions, callers: Callers) {
    forall s :: s in sessions ==> CountOk(sessions[s], PanesOf(callers, s))
  }

  /** An open session lingers exactly when it once had a pane and now has none, and its recorded timer can still run. */
  predicate LingersRight(s: nat, ts: Session, timers: Timers) {
    && (ts.lingering.Some? ==> ts.lingering.value in timers && timers[ts.lingering.value].owner == s)
    && (ts.ending == Open ==>
          && (ts.lingering.Some? <==> ts.served && ts.panes == 0)
          && (ts.lingering.Some? ==> timers[ts.lingering.value].phase in {Pending, Fired}))
  }

  /** A timer that can still fire is the recorded timer of an open session. */
  predicate TimerRight(t: nat, timer: Timer, sessions: Sessions) {
    && timer.owner in sessions
    && (timer.phase.Pending? ==> sessions[timer.owner].ending == Open && sessions[timer.owner].lingering == Some(t))
  }

  predicate LingerOk(sessions: Sessions, timers: Timers) {
    && (forall t :: t in timers ==> TimerRight(t, timers[t], sessions))
    && (forall s :: s in sessions ==> LingersRight(s, sessions[s], timers))
  }

  predicate Inv(st: State) {
    && RegistryOk(st.registry, st.sessions) && CallersOk(st.sessions, st.callers)
    && PanesOk(st.sessions, st.callers) && LingerOk(st.sessions, st.timers)
  }

  // ---------------------------------------------------------------- the registry

  lemma RegistrySize(registry: Registry, id: string, s: nat)
    ensures id in registry ==> |registry - {id}| < |registry|
    ensures id !in registry ==> |registry[id := s]| == |registry| + 1
  {
    if id in registry {
      assert (registry - {id}).Keys == registry.Keys - {id};
      assert |(registry - {id}).Keys| < |registry.Keys|;
    } else {
      assert registry[id := s].Keys == registry.Keys + {id};
    }
  }

  lemma RegistryFrame(registry: Registry, sessions: Sessions, s: nat, ts: Session)
    requires RegistryOk(registry, sessions) && s in sessions && ts.id == sessions[s].id && Live(ts) == Live(sessions[s])
    ensures RegistryOk(registry, sessions[s := ts])
  {
    hide Live;
  }

  lemma RegistryRemoval(st: State, s: nat, ts: Session)
    requires RegistryOk(st.registry, st.sessions) && s in st.sessions && ts.id == st.sessions[s].id && !Live(ts)
    ensures RegistryOk(Unregister(st, s).registry, st.sessions[s := ts])
  {
    hide Live;
    RegistrySize(st.registry, ts.id, s);
    var after, sessions := Unregister(st, s).registry, st.sessions[s := ts];
    assert |after| <= |st.registry|;
    forall id | id in after ensures after[id] in sessions && sessions[after[id]].id == id && Live(sessions[after[id]]) {
      assert id in st.registry && after[id] == st.registry[id];
    }
    forall r | r in sessions && Live(sessions[r]) ensures Names(after, sessions[r].id, r) {
      assert Names(st.registry, st.sessions[r].id, r);
    }
  }

  lemma RegistryAddition(registry: Registry, sessions: Sessions, s: nat, ts: Session)
    requires RegistryOk(registry, sessions) && s !in sessions && ts.id !in registry && Live(ts) && |registry| < MAX_SESSIONS
    ensures RegistryOk(registry[ts.id := s], sessions[s := ts])
  {
    hide Live;
    RegistrySize(registry, ts.id, s);
  }

  lemma StepKeepsRegistry(st: State, a: Action)
    requires Inv(st) && Enabled(st, a)
    ensures RegistryOk(Apply(st, a).registry, Apply(st, a).sessions)
  {
    hide RegistryOk, CallersOk, PanesOk, LingerOk, Stop;
    match a {
      case Ask(c, newSession) =>
        var caller := st.callers[c];
        if caller.id !in st.registry && |st.registry| < MAX_SESSIONS {
          RegistryAddition(st.registry, st.sessions, newSession, Session(caller.id, caller.panes, Creating, Open, 0, None, false));
        }
      case Create(c, ok) =>
        var s := st.callers[c].place.s;
        if ok {
          RegistryFrame(st.registry, st.sessions, s, st.sessions[s].(stage := Started));
        } else {
          RegistryRemoval(st, s, st.sessions[s].(stage := Failing));
        }
      case OpenBarrier(c) =>
        var s := st.callers[c].place.s;
        RegistryFrame(st.registry, st.sessions, s, st.sessions[s].(stage := if st.sessions[s].stage == Started then Ready else Failed));
      case Attach(c) =>
        var s := st.callers[c].place.s;
        RegistryFrame(st.registry, st.sessions, s, Attached(st.sessions[s]));
      case EndPane(c, newTimer) =>
        var s := st.callers[c].place.s;
        RegistryFrame(st.registry, st.sessions, s, Detached(st.sessions[s], newTimer));
      case Mark(s) => RegistryFrame(st.registry, st.sessions, s, st.sessions[s].(ending := Marked));
      case RunTimer(t) =>
        var s := st.timers[t].owner;
        if st.sessions[s].ending == Open {
          RegistryFrame(st.registry, st.sessions, s, st.sessions[s].(ending := Marked));
        }
      case Remove(s) => RegistryRemoval(st, s, st.sessions[s].(ending := Removed));
      case Announce(s) => RegistryFrame(st.registry, st.sessions, s, st.sessions[s].(ending := Announced));
      case _ =>
    }
  }

  // ---------------------------------------------------------------- the callers

  /** A session may advance while nobody relies on its old stage. */
  predicate StageMay(before: Stage, after: Stage) {
    before == after || (before == Creating && after in {Started, Failing})
  }

  lemma CallersFrame(sessions: Sessions, callers: Callers, s: nat, ts: Session)
    requires CallersOk(sessions, callers) && s in sessions && ts.id == sessions[s].id && StageMay(sessions[s].stage, ts.stage)
    ensures CallersOk(sessions[s := ts], callers)
  {
    forall c | c in callers ensures PlaceOk(sessions[s := ts], callers[c]) {
      assert PlaceOk(sessions, callers[c]);
    }
  }

  /** A caller that does not start making moves on. */
  lemma CallerMoves(sessions: Sessions, callers: Callers, c: nat, caller: Caller)
    requires CallersOk(sessions, callers) && PlaceOk(sessions, caller) && !caller.place.Making?
    ensures CallersOk(sessions, callers[c := caller])
  {
    hide PlaceOk;
  }

  lemma CallerMakes(sessions: Sessions, callers: Callers, c: nat, caller: Caller, ts: Session)
    requires CallersOk(sessions, callers) && caller.place.Making? && caller.place.s !in sessions
    requires ts.id == caller.id && ts.stage == Creating && caller.place.attempt <= 1
    ensures CallersOk(sessions[caller.place.s := ts], callers[c := caller])
  {
    var s := caller.place.s;
    forall d | d in callers && d != c ensures PlaceOk(sessions[s := ts], callers[d]) && !BothMake(caller, callers[d]) {
      assert PlaceOk(sessions, callers[d]);
    }
  }

  /** Opening the barrier: the one maker leaves, so the stage may become final. */
  lemma BarrierOpens(sessions: Sessions, callers: Callers, c: nat, caller: Caller, ts: Session)
    requires CallersOk(sessions, callers) && c in callers && callers[c].place.Making? && callers[c].place.s in sessions
    requires var s := callers[c].place.s;
             && ts.id == sessions[s].id && ts.stage in {Ready, Failed} && sessions[s].stage in {Started, Failing}
             && !caller.place.Making? && PlaceOk(sessions[s := ts], caller)
    ensures CallersOk(sessions[callers[c].place.s := ts], callers[c := caller])
  {
    var s := callers[c].place.s;
    forall d | d in callers && d != c ensures PlaceOk(sessions[s := ts], callers[d]) {
      assert PlaceOk(sessions, callers[d]);
      assert !BothMake(callers[c], callers[d]);
    }
  }

  lemma AskKeepsCallers(st: State, c: nat, newSession: nat)
    requires Inv(st) && Enabled(st, Ask(c, newSession))
    ensures CallersOk(DoAsk(st, c, newSession).sessions, DoAsk(st, c, newSession).callers)
  {
    hide RegistryOk, CallersOk, PanesOk, LingerOk, PanesOf;
    var caller := st.callers[c];
    InvAt(st, c, caller.id);
    if caller.id in st.registry {
      CallerMoves(st.sessions, st.callers, c, caller.(place := Waiting(st.registry[caller.id], caller.place.attempt)));
    } else if |st.registry| >= MAX_SESSIONS {
      CallerMoves(st.sessions, st.callers, c, caller.(place := Refused(SessionLimit)));
    } else {
      CallerMakes(st.sessions, st.callers, c, caller.(place := Making(newSession, caller.place.attempt)),
                  Session(caller.id, caller.panes, Creating, Open, 0, None, false));
    }
  }

  /** The invariant at one caller and one id. */
  lemma InvAt(st: State, c: nat, id: string)
    requires Inv(st)
    ensures c in st.callers ==> PlaceOk(st.sessions, st.callers[c])
    ensures id in st.registry ==> st.registry[id] in st.sessions && st.sessions[st.registry[id]].id == id && Live(st.sessions[st.registry[id]])
  {
    hide PanesOk, LingerOk, PlaceOk, Live;
  }

  lemma StepKeepsCallers(st: State, a: Action)
    requires Inv(st) && Enabled(st, a)
    ensures CallersOk(Apply(st, a).sessions, Apply(st, a).callers)
  {
    hide RegistryOk, CallersOk, PanesOk, LingerOk, Stop;
    match a {
      case Arrive(c, id, panes) => CallerMoves(st.sessions, st.callers, c, Caller(id, ClampPanes(panes), Asking(0)));
      case Ask(c, newSession) => AskKeepsCallers(st, c, newSession);
      case Create(c, ok) =>
        var s := st.callers[c].place.s;
        CallersFrame(st.sessions, st.callers, s, st.sessions[s].(stage := if ok then Started else Failing));
      case OpenBarrier(c) =>
        InvAt(st, c, "");
        var s, attempt := st.callers[c].place.s, st.callers[c].place.attempt;
        var ready := st.sessions[s].stage == Started;
        BarrierOpens(st.sessions, st.callers, c, st.callers[c].(place := if ready then Attaching(s, attempt) else Refused(CreateFailed)),
                     st.sessions[s].(stage := if ready then Ready else Failed));
      case Pass(c) =>
        InvAt(st, c, "");
        CallerMoves(st.sessions, st.callers, c, Apply(st, a).callers[c]);
      case Attach(c) =>
        InvAt(st, c, "");
        var s := st.callers[c].place.s;
        CallersFrame(st.sessions, st.callers, s, Apply(st, a).sessions[s]);
        CallerMoves(Apply(st, a).sessions, st.callers, c, Apply(st, a).callers[c]);
      case EndPane(c, newTimer) =>
        var s := st.callers[c].place.s;
        CallersFrame(st.sessions, st.callers, s, Apply(st, a).sessions[s]);
        CallerMoves(Apply(st, a).sessions, st.callers, c, Apply(st, a).callers[c]);
      case Fire(t) =>
      case RunTimer(t) => CallersFrame(st.sessions, st.callers, st.timers[t].owner, Apply(st, a).sessions[st.timers[t].owner]);
      case Mark(s) => CallersFrame(st.sessions, st.callers, s, Apply(st, a).sessions[s]);
      case Remove(s) => CallersFrame(st.sessions, st.callers, s, Apply(st, a).sessions[s]);
      case Announce(s) => CallersFrame(st.sessions, st.callers, s, Apply(st, a).sessions[s]);
    }
  }

  // ---------------------------------------------------------------- the panes

  lemma WithAndWithout(panes: set<nat>, c: nat)
    ensures |panes| == |panes - {c}| + if c in panes then 1 else 0
    ensures |panes - {c} + {c}| == |panes - {c}| + 1
  {
    if c in panes {
      assert panes == panes - {c} + {c};
    } else {
      assert panes == panes - {c};
    }
  }

  /** Moving one caller changes only the pane sets it enters or leaves. */
  lemma MovedPanes(callers: Callers, c: nat, moved: Caller, s: nat)
    ensures var before := PanesOf(callers, s) - {c};
            && PanesOf(callers[c := moved], s) == (if moved.place == Serving(s) then before + {c} else before)
            && |PanesOf(callers, s)| == |before| + (if c in PanesOf(callers, s) then 1 else 0)
            && |PanesOf(callers[c := moved], s)| == |before| + (if moved.place == Serving(s) then 1 else 0)
  {
    var before, after := PanesOf(callers, s) - {c}, PanesOf(callers[c := moved], s);
    if moved.place == Serving(s) {
      assert after == before + {c};
    } else {
      assert after == before;
    }
    hide PanesOf;
    WithAndWithout(PanesOf(callers, s), c);
  }

  predicate Serves(callers: Callers, c: nat, s: nat) {
    c in callers && callers[c].place == Serving(s)
  }

  /** One session changes its count by exactly the one caller that moved; everyone else keeps theirs. */
  lemma PanesMove(sessions: Sessions, callers: Callers, s: nat, ts: Session, c: nat, moved: Caller)
    requires PanesOk(sessions, callers) && s in sessions
    requires forall r :: r != s ==> (Serves(callers, c, r) <==> moved.place == Serving(r))
    requires ts.panes == sessions[s].panes - (if Serves(callers, c, s) then 1 else 0) + (if moved.place == Serving(s) then 1 else 0)
    requires ts.panes <= ts.maxPanes && (ts.panes > 0 ==> ts.served)
    ensures PanesOk(sessions[s := ts], callers[c := moved])
  {
    forall r | r in sessions ensures CountOk(sessions[s := ts][r], PanesOf(callers[c := moved], r)) {
      MovedPanes(callers, c, moved, r);
      assert CountOk(sessions[r], PanesOf(callers, r));
    }
  }

  lemma PanesFrame(sessions: Sessions, callers: Callers, s: nat, ts: Session)
    requires PanesOk(sessions, callers) && s in sessions
    requires ts.panes == sessions[s].panes && ts.maxPanes == sessions[s].maxPanes && ts.served == sessions[s].served
    ensures PanesOk(sessions[s := ts], callers)
  {
    forall r | r in sessions ensures CountOk(sessions[s := ts][r], PanesOf(callers, r)) {
      assert CountOk(sessions[r], PanesOf(callers, r));
    }
  }

  /** A caller that neither joins nor leaves does not matter. */
  lemma PanesBystander(sessions: Sessions, callers: Callers, c: nat, moved: Caller)
    requires PanesOk(sessions, callers) && !moved.place.Serving? && (c in callers ==> !callers[c].place.Serving?)
    ensures PanesOk(sessions, callers[c := moved])
  {
    forall r | r in sessions ensures CountOk(sessions[r], PanesOf(callers[c := moved], r)) {
      MovedPanes(callers, c, moved, r);
      assert CountOk(sessions[r], PanesOf(callers, r));
      assert PanesOf(callers[c := moved], r) == PanesOf(callers, r);
    }
  }

  lemma PanesOfNew(sessions: Sessions, callers: Callers, s: nat, ts: Session)
    requires PanesOk(sessions, callers) && CallersOk(sessions, callers) && s !in sessions && ts.panes == 0
    ensures PanesOk(sessions[s := ts], callers)
  {
    forall c | c in callers ensures callers[c].place != Serving(s) {
      assert PlaceOk(sessions, callers[c]);
    }
    assert PanesOf(callers, s) == {};
    forall r | r in sessions ensures CountOk(sessions[s := ts][r], PanesOf(callers, r)) {
    }
  }

  lemma AskKeepsPanes(st: State, c: nat, newSession: nat)
    requires Inv(st) && Enabled(st, Ask(c, newSession)) && st.callers[c].id !in st.registry && |st.registry| < MAX_SESSIONS
    ensures PanesOk(DoAsk(st, c, newSession).sessions, DoAsk(st, c, newSession).callers)
  {
    hide RegistryOk, CallersOk, PanesOk, LingerOk, PanesOf;
    var caller := st.callers[c];
    var ts := Session(caller.id, caller.panes, Creating, Open, 0, None, false);
    PanesOfNew(st.sessions, st.callers, newSession, ts);
    PanesBystander(st.sessions[newSession := ts], st.callers, c, caller.(place := Making(newSession, caller.place.attempt)));
  }

  /** The invariant at one session. */
  lemma CountAt(st: State, s: nat)
    requires Inv(st) && s in st.sessions
    ensures CountOk(st.sessions[s], PanesOf(st.callers, s)) && LingersRight(s, st.sessions[s], st.timers)
  {
    hide RegistryOk, CallersOk, CountOk, LingersRight, TimerRight;
  }

  lemma AttachKeepsPanes(st: State, c: nat)
    requires Inv(st) && Enabled(st, Attach(c))
    ensures PanesOk(DoAttach(st, c).sessions, DoAttach(st, c).callers)
  {
    hide RegistryOk, CallersOk, PanesOk, LingerOk, PanesOf, Stop;
    var s := st.callers[c].place.s;
    if AttachProblem(st.sessions[s]).None? {
      CountAt(st, s);
      PanesMove(st.sessions, st.callers, s, Attached(st.sessions[s]), c, st.callers[c].(place := Serving(s)));
    } else {
      PanesBystander(st.sessions, st.callers, c, DoAttach(st, c).callers[c]);
    }
  }

  lemma EndPaneKeepsPanes(st: State, c: nat, newTimer: nat)
    requires Inv(st) && Enabled(st, EndPane(c, newTimer))
    ensures PanesOk(DoEndPane(st, c, newTimer).sessions, DoEndPane(st, c, newTimer).callers)
  {
    hide RegistryOk, CallersOk, PanesOk, LingerOk, PanesOf, Stop;
    var s := st.callers[c].place.s;
    CountAt(st, s);
    PanesMove(st.sessions, st.callers, s, Detached(st.sessions[s], newTimer), c, st.callers[c].(place := Left));
  }

  lemma StepKeepsPanes(st: State, a: Action)
    requires Inv(st) && Enabled(st, a)
    ensures PanesOk(Apply(st, a).sessions, Apply(st, a).callers)
  {
    hide RegistryOk, CallersOk, PanesOk, LingerOk, Stop, PanesOf;
    match a {
      case Arrive(c, id, panes) => PanesBystander(st.sessions, st.callers, c, Apply(st, a).callers[c]);
      case Ask(c, newSession) =>
        var caller, moved := st.callers[c], Apply(st, a).callers[c];
        PanesBystander(st.sessions, st.callers, c, moved);
        StepKeepsCallers(st, a);
        if moved.place.Making? {
          AskKeepsPanes(st, c, newSession);
        }
      case Create(c, ok) => PanesFrame(st.sessions, st.callers, st.callers[c].place.s, Apply(st, a).sessions[st.callers[c].place.s]);
      case OpenBarrier(c) =>
        PanesFrame(st.sessions, st.callers, st.callers[c].place.s, Apply(st, a).sessions[st.callers[c].place.s]);
        PanesBystander(Apply(st, a).sessions, st.callers, c, Apply(st, a).callers[c]);
      case Pass(c) => PanesBystander(st.sessions, st.callers, c, Apply(st, a).callers[c]);
      case Attach(c) => AttachKeepsPanes(st, c);
      case EndPane(c, newTimer) => EndPaneKeepsPanes(st, c, newTimer);
      case Fire(t) =>
      case RunTimer(t) => PanesFrame(st.sessions, st.callers, st.timers[t].owner, Apply(st, a).sessions[st.timers[t].owner]);
      case Mark(s) => PanesFrame(st.sessions, st.callers, s, Apply(st, a).sessions[s]);
      case Remove(s) => PanesFrame(st.sessions, st.callers, s, Apply(st, a).sessions[s]);
      case Announce(s) => PanesFrame(st.sessions, st.callers, s, Apply(st, a).sessions[s]);
    }
  }

  // ---------------------------------------------------------------- lingering

  /** The session is replaced by one with the same count and the same recorded timer, and it does not reopen. */
  lemma LingerFrame(sessions: Sessions, timers: Timers, s: nat, ts: Session)
    requires LingerOk(sessions, timers) && s in sessions
    requires ts.panes == sessions[s].panes && ts.lingering == sessions[s].lingering && ts.served == sessions[s].served
    requires (ts.ending == Open) == (sessions[s].ending == Open)
    ensures LingerOk(sessions[s := ts], timers)
  {
    assert LingersRight(s, sessions[s], timers);
  }

  lemma LingerNew(sessions: Sessions, timers: Timers, s: nat, ts: Session)
    requires LingerOk(sessions, timers) && s !in sessions && ts.lingering.None? && !ts.served
    ensures LingerOk(sessions[s := ts], timers)
  {
  }

  /** The recorded timer is stopped and the session no longer needs it. */
  lemma LingerStops(sessions: Sessions, timers: Timers, s: nat, ts: Session)
    requires LingerOk(sessions, timers) && s in sessions
    requires if ts.ending == Open then ts.lingering.None? && !(ts.served && ts.panes == 0) else ts.lingering == sessions[s].lingering
    ensures LingerOk(sessions[s := ts], Stop(timers, sessions[s].lingering))
  {
    var after := Stop(timers, sessions[s].lingering);
    assert LingersRight(s, sessions[s], timers);
    assert after.Keys == timers.Keys;
    forall t | t in after ensures TimerRight(t, after[t], sessions[s := ts]) {
      assert TimerRight(t, timers[t], sessions);
    }
    forall r | r in sessions && r != s ensures LingersRight(r, sessions[r], after) {
      assert LingersRight(r, sessions[r], timers);
    }
  }

  lemma LingerDetaches(sessions: Sessions, timers: Timers, s: nat, newTimer: nat)
    requires LingerOk(sessions, timers) && s in sessions && newTimer !in timers
    requires sessions[s].panes > 0 && sessions[s].served
    ensures LingerOk(sessions[s := Detached(sessions[s], newTimer)],
                     if StartsLingering(sessions[s]) then timers[newTimer := Timer(s, Pending)] else timers)
  {
    var ts := Detached(sessions[s], newTimer);
    var after := if StartsLingering(sessions[s]) then timers[newTimer := Timer(s, Pending)] else timers;
    assert LingersRight(s, sessions[s], timers);
    forall t | t in after ensures TimerRight(t, after[t], sessions[s := ts]) {
      assert t in timers ==> TimerRight(t, timers[t], sessions);
    }
    forall r | r in sessions && r != s ensures LingersRight(r, sessions[r], after) {
      assert LingersRight(r, sessions[r], timers);
    }
  }

  /** A timer of an open session fires, or a timer whose session is closed has run. */
  lemma LingerTicks(sessions: Sessions, timers: Timers, t: nat, phase: TimerPhase)
    requires LingerOk(sessions, timers) && t in timers && phase in {Fired, Ran}
    requires phase == Ran ==> sessions[timers[t].owner].ending != Open
    ensures LingerOk(sessions, timers[t := timers[t].(phase := phase)])
  {
    var after := timers[t := timers[t].(phase := phase)];
    forall s | s in sessions ensures LingersRight(s, sessions[s], after) {
      assert LingersRight(s, sessions[s], timers);
    }
    assert forall u :: u in after ==> TimerRight(u, timers[u], sessions);
  }

  lemma AttachKeepsLinger(st: State, c: nat)
    requires Inv(st) && Enabled(st, Attach(c))
    ensures LingerOk(DoAttach(st, c).sessions, DoAttach(st, c).timers)
  {
    hide RegistryOk, CallersOk, PanesOk, LingerOk, PanesOf, Stop;
    var s := st.callers[c].place.s;
    CountAt(st, s);
    if AttachProblem(st.sessions[s]).None? {
      LingerStops(st.sessions, st.timers, s, Attached(st.sessions[s]));
    }
  }

  lemma EndPaneKeepsLinger(st: State, c: nat, newTimer: nat)
    requires Inv(st) && Enabled(st, EndPane(c, newTimer))
    ensures LingerOk(DoEndPane(st, c, newTimer).sessions, DoEndPane(st, c, newTimer).timers)
  {
    hide RegistryOk, CallersOk, PanesOk, LingerOk, Stop;
    var s := st.callers[c].place.s;
    CountAt(st, s);
    assert c in PanesOf(st.callers, s);
    LingerDetaches(st.sessions, st.timers, s, newTimer);
  }

  lemma RunTimerKeepsLinger(st: State, t: nat)
    requires Inv(st) && Enabled(st, RunTimer(t))
    ensures LingerOk(Apply(st, RunTimer(t)).sessions, Apply(st, RunTimer(t)).timers)
  {
    hide RegistryOk, CallersOk, PanesOk, LingerOk;
    var s := st.timers[t].owner;
    if st.sessions[s].ending == Open {
      var marked, stopped := st.sessions[s].(ending := Marked), Stop(st.timers, st.sessions[s].lingering);
      LingerStops(st.sessions, st.timers, s, marked);
      LingerTicks(st.sessions[s := marked], stopped, t, Ran);
      assert stopped[t := stopped[t].(phase := Ran)] ==
             Stop(st.timers[t := st.timers[t].(phase := Ran)], st.sessions[s].lingering);
    } else {
      LingerTicks(st.sessions, st.timers, t, Ran);
    }
  }

  lemma StepKeepsLinger(st: State, a: Action)
    requires Inv(st) && Enabled(st, a)
    ensures LingerOk(Apply(st, a).sessions, Apply(st, a).timers)
  {
    hide RegistryOk, CallersOk, PanesOk, LingerOk, Stop, PanesOf;
    var after := Apply(st, a);
    match a {
      case Ask(c, newSession) =>
        if newSession in after.sessions {
          LingerNew(st.sessions, st.timers, newSession, after.sessions[newSession]);
        }
      case Create(c, ok) => LingerFrame(st.sessions, st.timers, st.callers[c].place.s, after.sessions[st.callers[c].place.s]);
      case OpenBarrier(c) => LingerFrame(st.sessions, st.timers, st.callers[c].place.s, after.sessions[st.callers[c].place.s]);
      case Attach(c) => AttachKeepsLinger(st, c);
      case EndPane(c, newTimer) => EndPaneKeepsLinger(st, c, newTimer);
      case Fire(t) => LingerTicks(st.sessions, st.timers, t, Fired);
      case RunTimer(t) => RunTimerKeepsLinger(st, t);
      case Mark(s) => LingerStops(st.sessions, st.timers, s, after.sessions[s]);
      case Remove(s) => LingerFrame(st.sessions, st.timers, s, after.sessions[s]);
      case Announce(s) => LingerFrame(st.sessions, st.timers, s, after.sessions[s]);
      case _ =>
    }
  }

  lemma StepKeepsInv(st: State, a: Action)
    requires Inv(st) && Enabled(st, a)
    ensures Inv(Apply(st, a))
  {
    hide Apply, Enabled;
    StepKeepsRegistry(st, a);
    StepKeepsCallers(st, a);
    StepKeepsPanes(st, a);
    StepKeepsLinger(st, a);
  }
}
