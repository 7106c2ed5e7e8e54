/** Refreshing saved results. */
module RefreshProtocol {
  /* Atomic conditional requests to a shared object store, which interleave freely with other refresh workers and with
     anyone else who writes or deletes runs. */

  import opened Options
  import opened Runs
  import opened SavedResult

  /** 50 MiB. */
  const MAX_BYTES: nat := 50 * 1024 * 1024

  datatype Key = Result(run: string) | Backup(run: string, hash: nat) | Other(name: string)

  type Store = map<Key, Body>

  /** What the store and the hash make of a body. */
  datatype Env = Env(etag: Body -> string, hash: Body -> nat, size: Body -> nat)

  /** Entity tags and content hashes tell these bodies apart. */
  predicate Faithful(env: Env, bodies: set<Body>) {
    && (forall a, b :: a in bodies && b in bodies && env.etag(a) == env.etag(b) ==> a == b)
    && (forall a, b :: a in bodies && b in bodies && env.hash(a) == env.hash(b) ==> a == b)
  }

  // ---------------------------------------------------------------- conditional requests

  /** If-Match, section 13.1.1 of RFC 9110. */
  predicate Matches(env: Env, store: Store, key: Key, etag: string) {
    key in store && env.etag(store[key]) == etag
  }

  function PutIfMatch(env: Env, store: Store, key: Key, etag: string, body: Body): Store {
    if Matches(env, store, key, etag) then store[key := body] else store
  }

  /** If-None-Match: *, section 13.1.2 of RFC 9110. */
  function PutIfAbsent(store: Store, key: Key, body: Body): Store {
    if key in store then store else store[key := body]
  }

  function BackupKey(env: Env, run: string, body: Body): Key {
    Backup(run, env.hash(body))
  }

  // ---------------------------------------------------------------- the state machine

  datatype Verdict = NoChange | Changed | Error

  /** Where one call of the refresh stands. */
  datatype Phase = Idle
                 | Stated(etag: string)
                 | Read(etag: string, body: Body)
                 | Computed(etag: string, body: Body, updated: Body)
                 | BackedUp(etag: string, body: Body, updated: Body)
                 | Finished(verdict: Verdict)

  datatype Worker = Worker(run: string, phase: Phase)

  /** A write whose answer never came back: the store may carry it out at any later time, and again on a retry. */
  datatype Request = SaveBackup(run: string, body: Body) | Replace(run: string, body: Body, updated: Body)

  datatype State = State(store: Store, workers: map<nat, Worker>, late: set<Request>)

  /** What a worker does next: the request or computation that the code makes in this phase. */
  datatype Step = Stat | Get | Recompute(result: Body) | KeepCurrent | SaveOld | SaveOldLost | PutNew | PutNewLost | GiveUp

  datatype Action = Start(w: nat, run: string)
                  | Work(w: nat, step: Step)
                  | Deliver(request: Request)
                  | OutsideWrite(key: Key, body: Body)
                  | OutsideDelete(key: Key)

  predicate Outside(a: Action) {
    a.OutsideWrite? || a.OutsideDelete?
  }

  function PhaseOf(s: State, w: nat): Phase {
    if w in s.workers then s.workers[w].phase else Finished(NoChange)
  }

  predicate Ready(phase: Phase, step: Step) {
    match (phase, step)
    case (Idle, Stat) => true
    case (Stated(_), Get) => true
    case (Read(_, body), Recompute(result)) => IsRefreshOf(body, result)
    case (Read(_, body), KeepCurrent) => Current(body)
    case (Computed(_, _, _), SaveOld) => true
    case (Computed(_, _, _), SaveOldLost) => true
    case (BackedUp(_, _, _), PutNew) => true
    case (BackedUp(_, _, _), PutNewLost) => true
    case (_, GiveUp) => !phase.Finished?
    case _ => false
  }

  /** The worker's next phase, the store after its request, and a request left unanswered. */
  datatype Effect = Effect(phase: Phase, store: Store, unanswered: set<Request>)

  function Perform(env: Env, store: Store, request: Request): Store {
    match request
    case SaveBackup(run, body) => PutIfAbsent(store, BackupKey(env, run, body), body)
    case Replace(run, body, updated) => PutIfMatch(env, store, Result(run), env.etag(body), updated)
  }

  function DoStat(env: Env, store: Store, key: Key): Phase {
    if key !in store then Finished(NoChange)
    else if env.size(store[key]) > MAX_BYTES || env.etag(store[key]) == "" then Finished(Error)
    else Stated(env.etag(store[key]))
  }

  /** autoscan-server/ai_reanalysis.go, lines 161-210, one request or computation at a time. */
  function Advance(env: Env, store: Store, run: string, phase: Phase, step: Step): Effect {
    var key := Result(run);
    match (phase, step)
    case (Idle, Stat) => Effect(DoStat(env, store, key), store, {})
    case (Stated(etag), Get) =>
      var readable := Matches(env, store, key, etag) && env.size(store[key]) <= MAX_BYTES;
      Effect(if readable then Read(etag, store[key]) else Finished(Error), store, {})
    case (Read(etag, body), Recompute(result)) =>
      Effect(if env.size(result) <= MAX_BYTES then Computed(etag, body, result) else Finished(Error), store, {})
    case (Read(_, _), KeepCurrent) => Effect(Finished(NoChange), store, {})
    case (Computed(etag, body, updated), SaveOld) =>
      Effect(BackedUp(etag, body, updated), PutIfAbsent(store, BackupKey(env, run, body), body), {})
    case (Computed(_, body, _), SaveOldLost) => Effect(Finished(Error), store, {SaveBackup(run, body)})
    case (BackedUp(etag, _, updated), PutNew) =>
      Effect(Finished(if Matches(env, store, key, etag) then Changed else Error), PutIfMatch(env, store, key, etag, updated), {})
    case (BackedUp(_, body, updated), PutNewLost) => Effect(Finished(Error), store, {Replace(run, body, updated)})
    case _ => Effect(Finished(Error), store, {})
  }

  predicate Enabled(s: State, a: Action) {
    match a
    case Start(w, run) => PhaseOf(s, w).Finished?
    case Work(w, step) => w in s.workers && Ready(s.workers[w].phase, step)
    case Deliver(request) => request in s.late
    case OutsideWrite(key, body) => !key.Backup?
    case OutsideDelete(key) => !key.Backup?
  }

  function Apply(env: Env, s: State, a: Action): State
    requires Enabled(s, a)
  {
    match a
    case Start(w, run) => s.(workers := s.workers[w := Worker(run, Idle)])
    case Work(w, step) =>
      var worker := s.workers[w];
      var effect := Advance(env, s.store, worker.run, worker.phase, step);
      State(effect.store, s.workers[w := worker.(phase := effect.phase)], s.late + effect.unanswered)
    case Deliver(request) => s.(store := Perform(env, s.store, request))
    case OutsideWrite(key, body) => s.(store := s.store[key := body])
    case OutsideDelete(key) => s.(store := s.store - {key})
  }

  // ---------------------------------------------------------------- the invariant

  predicate Saved(env: Env, store: Store, run: string, body: Body) {
    BackupKey(env, run, body) in store && store[BackupKey(env, run, body)] == body
  }

  predicate PhaseOk(env: Env, store: Store, run: string, phase: Phase) {
    match phase
    case Read(etag, body) => etag == env.etag(body)
    case Computed(etag, body, updated) => etag == env.etag(body) && IsRefreshOf(body, updated)
    case BackedUp(etag, body, updated) => etag == env.etag(body) && IsRefreshOf(body, updated) && Saved(env, store, run, body)
    case _ => true
  }

  predicate RequestOk(env: Env, store: Store, r: Request) {
    r.Replace? ==> IsRefreshOf(r.body, r.updated) && Saved(env, store, r.run, r.body)
  }

  predicate BackupsMatch(env: Env, store: Store) {
    forall key :: key in store && key.Backup? ==> env.hash(store[key]) == key.hash
  }

  function PhaseBodies(phase: Phase): set<Body> {
    match phase
    case Read(_, body) => {body}
    case Computed(_, body, updated) => {body, updated}
    case BackedUp(_, body, updated) => {body, updated}
    case _ => {}
  }

  function RequestBodies(r: Request): set<Body> {
    match r
    case SaveBackup(_, body) => {body}
    case Replace(_, body, updated) => {body, updated}
  }

  /** The bodies an action brings in. */
  function ActionBodies(a: Action): set<Body> {
    match a
    case Work(_, Recompute(result)) => {result}
    case OutsideWrite(_, body) => {body}
    case _ => {}
  }

  /** Every body in the store, in a worker's hands or in an unanswered request is one of these. */
  predicate Within(s: State, bodies: set<Body>) {
    && (forall key :: key in s.store ==> s.store[key] in bodies)
    && (forall w :: w in s.workers ==> PhaseBodies(s.workers[w].phase) <= bodies)
    && (forall r :: r in s.late ==> RequestBodies(r) <= bodies)
  }

  predicate Uses(actions: seq<Action>, bodies: set<Body>) {
    forall a :: a in actions ==> ActionBodies(a) <= bodies
  }

  predicate Inv(env: Env, s: State) {
    && BackupsMatch(env, s.store)
    && (forall w :: w in s.workers ==> PhaseOk(env, s.store, s.workers[w].run, s.workers[w].phase))
    && (forall r :: r in s.late ==> RequestOk(env, s.store, r))
  }

  /** Nobody has started yet; backups left by earlier workers are in order. */
  predicate Initial(env: Env, s: State) {
    s.workers == map[] && s.late == {} && BackupsMatch(env, s.store)
  }

  predicate BackupsKept(before: Store, after: Store) {
    forall key :: key in before && key.Backup? ==> key in after && after[key] == before[key]
  }

  lemma StepKeepsBackups(env: Env, s: State, a: Action)
    requires Enabled(s, a)
    ensures BackupsKept(s.store, Apply(env, s, a).store)
    ensures BackupsMatch(env, s.store) ==> BackupsMatch(env, Apply(env, s, a).store)
  {
    hide IsRefreshOf, Current;
  }

  lemma KeptStaysOk(env: Env, before: Store, after: Store)
    requires BackupsKept(before, after)
    ensures forall run, phase :: PhaseOk(env, before, run, phase) ==> PhaseOk(env, after, run, phase)
    ensures forall r :: RequestOk(env, before, r) ==> RequestOk(env, after, r)
  {
    hide IsRefreshOf;
  }

  /** The worker that moves is in order in its new phase, and so is the request it leaves behind. */
  lemma AdvanceIsOk(env: Env, bodies: set<Body>, store: Store, run: string, phase: Phase, step: Step)
    requires Faithful(env, bodies) && BackupsMatch(env, store) && PhaseOk(env, store, run, phase) && Ready(phase, step)
    requires PhaseBodies(phase) <= bodies && forall key :: key in store ==> store[key] in bodies
    ensures var effect := Advance(env, store, run, phase, step);
            PhaseOk(env, effect.store, run, effect.phase) && forall r :: r in effect.unanswered ==> RequestOk(env, effect.store, r)
  {
    hide IsRefreshOf, Current;
  }

  lemma StepKeepsInv(env: Env, bodies: set<Body>, s: State, a: Action)
    requires Faithful(env, bodies) && Within(s, bodies) && Inv(env, s) && Enabled(s, a)
    ensures Inv(env, Apply(env, s, a))
  {
    hide PhaseOk, RequestOk, Advance, Ready, BackupsMatch, BackupsKept, PhaseBodies, RequestBodies;
    StepKeepsBackups(env, s, a);
    KeptStaysOk(env, s.store, Apply(env, s, a).store);
    match a {
      case Work(w, step) => AdvanceIsOk(env, bodies, s.store, s.workers[w].run, s.workers[w].phase, step);
      case Start(w, run) => assert PhaseOk(env, s.store, run, Idle) by { StartIsOk(env, s.store, run); }
      case _ =>
    }
  }

  lemma StartIsOk(env: Env, store: Store, run: string)
    ensures PhaseOk(env, store, run, Idle)
  {
  }

  lemma AdvanceStaysWithin(env: Env, bodies: set<Body>, store: Store, run: string, phase: Phase, step: Step)
    requires PhaseBodies(phase) <= bodies && (step.Recompute? ==> step.result in bodies) && forall key :: key in store ==> store[key] in bodies
    ensures var effect := Advance(env, store, run, phase, step);
            && PhaseBodies(effect.phase) <= bodies
            && (forall key :: key in effect.store ==> effect.store[key] in bodies)
            && (forall r :: r in effect.unanswered ==> RequestBodies(r) <= bodies)
  {
  }

  /** No step brings in a body of its own. */
  lemma StepStaysWithin(env: Env, bodies: set<Body>, s: State, a: Action)
    requires Within(s, bodies) && Enabled(s, a) && ActionBodies(a) <= bodies
    ensures Within(Apply(env, s, a), bodies)
  {
    hide Advance, Ready;
    match a {
      case Work(w, step) => AdvanceStaysWithin(env, bodies, s.store, s.workers[w].run, s.workers[w].phase, step);
      case Deliver(r) => assert RequestBodies(r) <= bodies;
      case _ =>
    }
  }

  // ---------------------------------------------------------------- tags and hashes exist

  function Position(list: seq<Body>, b: Body): (n: nat)
    ensures n <= |list| && (n < |list| <==> b in list) && (n < |list| ==> list[n] == b)
  {
    if list == [] || list[0] == b then 0 else 1 + Position(list[1..], b)
  }

  ghost function InSomeOrder(bodies: set<Body>): (list: seq<Body>)
    ensures forall b :: b in bodies ==> b in list
    decreases |bodies|
  {
    if bodies == {} then []
    else
      var b :| b in bodies;
      var rest := InSomeOrder(bodies - {b});
      assert forall c :: c in bodies ==> c == b || c in rest;
      [b] + rest
  }

  /** Whatever bodies a run meets, there are tags and hashes that tell them apart, with no empty tag: the results about runs speak of
      some store for every run. */
  lemma TagsAndHashesExist(bodies: set<Body>)
    ensures exists env: Env :: Faithful(env, bodies) && forall b :: b in bodies ==> env.etag(b) != "" && env.size(b) <= MAX_BYTES
  {
    var list := InSomeOrder(bodies);
    var env := Env(b => seq(Position(list, b) + 1, i => 'x'), b => Position(list, b), b => 0);
    forall a, b | a in bodies && b in bodies && (env.etag(a) == env.etag(b) || env.hash(a) == env.hash(b)) ensures a == b {
      assert |env.etag(a)| == Position(list, a) + 1 && |env.etag(b)| == Position(list, b) + 1;
      assert list[Position(list, a)] == a && list[Position(list, b)] == b;
    }
    assert Faithful(env, bodies);
  }

  // ---------------------------------------------------------------- what one replacement does

  function Stored(store: Store, key: Key): Option<Body> {
    if key in store then Some(store[key]) else None
  }

  /** A step that no outsider takes changes what is stored for a run. */
  predicate Replaces(env: Env, s: State, a: Action, run: string) {
    Enabled(s, a) && !Outside(a) && Stored(s.store, Result(run)) != Stored(Apply(env, s, a).store, Result(run))
  }

  /** Whoever replaces a run, promptly or late, replaces exactly the body that was analysed, never brings back a deleted run,
      touches nothing else, and finds that same body already backed up. */
  lemma ReplacementIsSafe(env: Env, bodies: set<Body>, s: State, a: Action, run: string)
    requires Faithful(env, bodies) && Within(s, bodies) && Inv(env, s) && Replaces(env, s, a, run)
    ensures var key, after := Result(run), Apply(env, s, a).store;
            && key in s.store && key in after
            && IsRefreshOf(s.store[key], after[key])
            && Saved(env, s.store, run, s.store[key])
            && after == s.store[key := after[key]]
  {
    hide IsRefreshOf, Current;
    match a {
      case Work(w, step) => assert PhaseOk(env, s.store, s.workers[w].run, s.workers[w].phase);
      case Deliver(request) => assert RequestOk(env, s.store, request);
      case _ =>
    }
  }

  /** A put succeeds exactly when the run still holds the body this worker read; otherwise it leaves the store alone. */
  lemma PutReplacesWhatWasRead(env: Env, bodies: set<Body>, s: State, w: nat)
    requires Faithful(env, bodies) && Within(s, bodies) && Inv(env, s) && w in s.workers && s.workers[w].phase.BackedUp?
    ensures var phase, key, after := s.workers[w].phase, Result(s.workers[w].run), Apply(env, s, Work(w, PutNew));
            && (after.workers[w].phase == Finished(Changed) <==> Stored(s.store, key) == Some(phase.body))
            && after.store == if Stored(s.store, key) == Some(phase.body) then s.store[key := phase.updated] else s.store
  {
    hide IsRefreshOf, Current;
    assert PhaseOk(env, s.store, s.workers[w].run, s.workers[w].phase);
  }

  // ---------------------------------------------------------------- whole runs

  function Machine(env: Env): (State, Action) -> Option<State> {
    (s: State, a: Action) => if Enabled(s, a) then Some(Apply(env, s, a)) else None
  }

  predicate InOrder(env: Env, bodies: set<Body>, s: State) {
    Inv(env, s) && Within(s, bodies)
  }

  /** The invariant holds at every point of every run whose bodies tags and hashes tell apart. */
  lemma InvAlways(env: Env, bodies: set<Body>, s: State, actions: seq<Action>, n: nat)
    requires Faithful(env, bodies) && InOrder(env, bodies, s) && Uses(actions, bodies) && Possible(Machine(env), s, actions) && n <= |actions|
    ensures InOrder(env, bodies, After(Machine(env), s, actions, n))
  {
    hide Apply, Enabled, Inv, Within, Possible, After, Faithful;
    var inv, among := t => InOrder(env, bodies, t), a => ActionBodies(a) <= bodies;
    forall t, a | inv(t) && among(a) && Machine(env)(t, a).Some? ensures inv(Machine(env)(t, a).value) {
      StepKeepsInv(env, bodies, t, a);
      StepStaysWithin(env, bodies, t, a);
    }
    AlwaysHolds(Machine(env), inv, among, s, actions, n);
  }

  /** No backup is ever changed or removed, whatever happens later. */
  lemma {:induction false} BackupsForever(env: Env, s: State, actions: seq<Action>, m: nat, n: nat)
    requires Possible(Machine(env), s, actions) && m <= n <= |actions|
    ensures BackupsKept(After(Machine(env), s, actions, m).store, After(Machine(env), s, actions, n).store)
    decreases n - m
  {
    hide Apply, Enabled, After, Possible;
    if m < n {
      AfterStep(Machine(env), s, actions, m);
      StepKeepsBackups(env, After(Machine(env), s, actions, m), actions[m]);
      BackupsForever(env, s, actions, m + 1, n);
    }
  }

  /** Over every schedule of workers, late requests, writers and deleters: whenever a refresh replaces a run, the replacement is a
      refresh of exactly what was stored, and the replaced body can be read back from its backup at every later point. */
  lemma NothingReplacedIsLost(env: Env, bodies: set<Body>, s: State, actions: seq<Action>, i: nat, n: nat, run: string)
    requires Faithful(env, bodies) && Initial(env, s) && Within(s, bodies) && Uses(actions, bodies)
    requires Possible(Machine(env), s, actions) && i < n <= |actions|
    requires Replaces(env, After(Machine(env), s, actions, i), actions[i], run)
    ensures var before := Stored(After(Machine(env), s, actions, i).store, Result(run));
            var after := Stored(After(Machine(env), s, actions, i + 1).store, Result(run));
            && before.Some? && after.Some? && IsRefreshOf(before.value, after.value)
            && Saved(env, After(Machine(env), s, actions, n).store, run, before.value)
  {
    hide Apply, Enabled, After, Possible, IsRefreshOf, Replaces, Within, Faithful;
    InvAlways(env, bodies, s, actions, i);
    AfterStep(Machine(env), s, actions, i);
    ReplacementIsSafe(env, bodies, After(Machine(env), s, actions, i), actions[i], run);
    BackupsForever(env, s, actions, i, n);
  }

  /** How many refreshes replaced this run. */
  function Replacements(env: Env, s: State, actions: seq<Action>, run: string): nat
    requires Possible(Machine(env), s, actions)
    decreases |actions|
  {
    if actions == [] then 0
    else (if Replaces(env, s, actions[0], run) then 1 else 0) + Replacements(env, Apply(env, s, actions[0]), actions[1..], run)
  }

  /** Nobody outside writes this run; deleting it is allowed. */
  predicate NoOutsideWrite(actions: seq<Action>, run: string) {
    forall a :: a in actions && a.OutsideWrite? ==> a.key != Result(run)
  }

  predicate Outdated(store: Store, run: string) {
    Result(run) in store && !Current(store[Result(run)])
  }

  /** Between outside writes a run is refreshed at most once, and not at all when it is gone or already current. */
  lemma {:induction false} AtMostOneRefresh(env: Env, bodies: set<Body>, s: State, actions: seq<Action>, run: string)
    requires Faithful(env, bodies) && InOrder(env, bodies, s) && Uses(actions, bodies)
    requires Possible(Machine(env), s, actions) && NoOutsideWrite(actions, run)
    ensures Replacements(env, s, actions, run) <= if Outdated(s.store, run) then 1 else 0
    decreases |actions|
  {
    hide Inv, Outdated, Replaces, Within, Faithful;
    if actions != [] {
      var next := Apply(env, s, actions[0]);
      hide Apply, Enabled;
      assert actions[0] in actions;
      StepKeepsInv(env, bodies, s, actions[0]);
      StepStaysWithin(env, bodies, s, actions[0]);
      assert NoOutsideWrite(actions[1..], run) && Uses(actions[1..], bodies);
      AtMostOneRefresh(env, bodies, next, actions[1..], run);
      OutdatedShrinks(env, bodies, s, actions[0], run);
    }
  }

  lemma OutdatedShrinks(env: Env, bodies: set<Body>, s: State, a: Action, run: string)
    requires Faithful(env, bodies) && InOrder(env, bodies, s) && Enabled(s, a) && (a.OutsideWrite? ==> a.key != Result(run))
    ensures Replaces(env, s, a, run) ==> Outdated(s.store, run) && !Outdated(Apply(env, s, a).store, run)
    ensures Outdated(Apply(env, s, a).store, run) ==> Outdated(s.store, run)
  {
    hide Inv, Advance, Ready, Perform, Within, Faithful;
    if Replaces(env, s, a, run) {
      ReplacementIsSafe(env, bodies, s, a, run);
    }
  }

  /** One worker's way through the protocol when nobody interferes. */
  function Straight(run: string, result: Body): seq<Action> {
    [Start(0, run), Work(0, Stat), Work(0, Get), Work(0, Recompute(result)), Work(0, SaveOld), Work(0, PutNew)]
  }

  function Alone(s: State, run: string, phase: Phase): State {
    s.(workers := map[0 := Worker(run, phase)])
  }

  lemma OneStep(env: Env, s: State, a: Action, next: State, rest: seq<Action>)
    requires Machine(env)(s, a) == Some(next) && Possible(Machine(env), next, rest)
    ensures Possible(Machine(env), s, [a] + rest)
    ensures After(Machine(env), s, [a] + rest, |rest| + 1) == After(Machine(env), next, rest, |rest|)
  {
    hide Machine;
    assert ([a] + rest)[1..] == rest;
  }

  /** The worker advances to its next phase. */
  lemma AloneStep(env: Env, s: State, run: string, phase: Phase, step: Step)
    requires Ready(phase, step)
    requires Advance(env, s.store, run, phase, step).unanswered == {}
    ensures var effect := Advance(env, s.store, run, phase, step);
            Machine(env)(Alone(s, run, phase), Work(0, step)) == Some(Alone(s, run, effect.phase).(store := effect.store))
  {
    hide Advance, Ready;
    var effect := Advance(env, s.store, run, phase, step);
    var next := Apply(env, Alone(s, run, phase), Work(0, step));
    assert next.workers == map[0 := Worker(run, effect.phase)] && next.late == s.late;
  }

  lemma SavesAndPuts(env: Env, s: State, run: string, result: Body)
    requires Initial(env, s) && Result(run) in s.store
    ensures var body, rest := s.store[Result(run)], [Work(0, SaveOld), Work(0, PutNew)];
            var start := Alone(s, run, Computed(env.etag(body), body, result));
            && Possible(Machine(env), start, rest)
            && Stored(After(Machine(env), start, rest, 2).store, Result(run)) == Some(result)
  {
    hide IsRefreshOf, Current;
    var body := s.store[Result(run)];
    var etag, saved := env.etag(body), s.(store := PutIfAbsent(s.store, BackupKey(env, run, body), body));
    var done := Alone(saved.(store := saved.store[Result(run) := result]), run, Finished(Changed));
    AloneStep(env, s, run, Computed(etag, body, result), SaveOld);
    AloneStep(env, saved, run, BackedUp(etag, body, result), PutNew);
    var none: seq<Action> := [];
    assert Possible(Machine(env), done, none) && After(Machine(env), done, none, 0) == done && Stored(done.store, Result(run)) == Some(result);
    hide *;
    OneStep(env, Alone(saved, run, BackedUp(etag, body, result)), Work(0, PutNew), done, none);
    OneStep(env, Alone(s, run, Computed(etag, body, result)), Work(0, SaveOld), Alone(saved, run, BackedUp(etag, body, result)), [Work(0, PutNew)] + none);
    assert [Work(0, SaveOld)] + ([Work(0, PutNew)] + none) == [Work(0, SaveOld), Work(0, PutNew)];
  }

  /** Refreshes do happen: from a store that holds an outdated run, the machine can run to the refreshed body. */
  lemma SomeRunRefreshes(env: Env, s: State, run: string, result: Body)
    requires Initial(env, s) && Result(run) in s.store && IsRefreshOf(s.store[Result(run)], result)
    requires env.etag(s.store[Result(run)]) != "" && env.size(s.store[Result(run)]) <= MAX_BYTES && env.size(result) <= MAX_BYTES
    ensures Possible(Machine(env), s, Straight(run, result))
    ensures Stored(After(Machine(env), s, Straight(run, result), 6).store, Result(run)) == Some(result)
  {
    hide IsRefreshOf, Current;
    var body := s.store[Result(run)];
    var etag, rest := env.etag(body), [Work(0, SaveOld), Work(0, PutNew)];
    assert Machine(env)(s, Start(0, run)) == Some(Alone(s, run, Idle));
    AloneStep(env, s, run, Idle, Stat);
    AloneStep(env, s, run, Stated(etag), Get);
    AloneStep(env, s, run, Read(etag, body), Recompute(result));
    SavesAndPuts(env, s, run, result);
    hide *;
    var r4 := [Work(0, Recompute(result))] + rest;
    var r5 := [Work(0, Get)] + r4;
    var r6 := [Work(0, Stat)] + r5;
    OneStep(env, Alone(s, run, Read(etag, body)), Work(0, Recompute(result)), Alone(s, run, Computed(etag, body, result)), rest);
    OneStep(env, Alone(s, run, Stated(etag)), Work(0, Get), Alone(s, run, Read(etag, body)), r4);
    OneStep(env, Alone(s, run, Idle), Work(0, Stat), Alone(s, run, Stated(etag)), r5);
    OneStep(env, s, Start(0, run), Alone(s, run, Idle), r6);
    StraightIs(run, result, [Start(0, run)] + r6);
  }

  lemma StraightIs(run: string, result: Body, actions: seq<Action>)
    requires actions == [Start(0, run), Work(0, Stat), Work(0, Get), Work(0, Recompute(result)), Work(0, SaveOld), Work(0, PutNew)]
    ensures actions == Straight(run, result) && |actions| == 6
  {
  }

  // ---------------------------------------------------------------- one call of the refresh

  /** What `Reanalyze` guarantees of its outcome. */
  predicate Sound(body: Body, outcome: Outcome) {
    && (outcome.Unchanged? <==> Current(body))
    && (outcome.Updated? ==> IsRefreshOf(body, outcome.body))
  }

  function NextStep(phase: Phase, reanalyze: Body -> Outcome): Step {
    match phase
    case Idle => Stat
    case Stated(_) => Get
    case Read(_, body) =>
      (match reanalyze(body)
       case Unchanged(_) => KeepCurrent
       case Updated(result) => Recompute(result)
       case Failed(_) => GiveUp)
    case Computed(_, _, _) => SaveOld
    case BackedUp(_, _, _) => PutNew
    case Finished(_) => GiveUp
  }

  function StepsLeft(phase: Phase): nat {
    match phase
    case Idle => 5
    case Stated(_) => 4
    case Read(_, _) => 3
    case Computed(_, _, _) => 2
    case BackedUp(_, _, _) => 1
    case Finished(_) => 0
  }

  lemma NextStepIsReady(env: Env, store: Store, run: string, phase: Phase, reanalyze: Body -> Outcome)
    requires !phase.Finished? && (forall body :: Sound(body, reanalyze(body)))
    ensures Ready(phase, NextStep(phase, reanalyze))
    ensures StepsLeft(Advance(env, store, run, phase, NextStep(phase, reanalyze)).phase) < StepsLeft(phase)
  {
    hide IsRefreshOf, Current;
    if phase.Read? {
      assert Sound(phase.body, reanalyze(phase.body));
    }
  }

  /** The whole call, with anything at all happening to the store between two of its steps. */
  function Call(env: Env, store: Store, run: string, phase: Phase, reanalyze: Body -> Outcome, others: nat -> Store -> Store): (Verdict, Store)
    decreases StepsLeft(phase)
  {
    if phase.Finished? then (phase.verdict, store)
    else
      var effect := Advance(env, store, run, phase, NextStep(phase, reanalyze));
      if effect.phase.Finished? then (effect.phase.verdict, effect.store)
      else if StepsLeft(effect.phase) < StepsLeft(phase) then
        Call(env, others(StepsLeft(effect.phase))(effect.store), run, effect.phase, reanalyze, others)
      else (Error, effect.store)
  }

  /** The bucket, shared with everyone else. */
  class Bucket {
    var objects: Store

    /** Size and entity tag. */
    method StatObject(env: Env, key: Key) returns (r: Option<(nat, string)>)
      ensures r == if key in objects then Some((env.size(objects[key]), env.etag(objects[key]))) else None
    {
      if key in objects {
        return Some((env.size(objects[key]), env.etag(objects[key])));
      }
      return None;
    }

    method GetIfMatch(env: Env, key: Key, etag: string) returns (r: Option<Body>)
      ensures r == if Matches(env, objects, key, etag) then Some(objects[key]) else None
    {
      if key in objects && env.etag(objects[key]) == etag {
        return Some(objects[key]);
      }
      return None;
    }

    method PutNewObject(key: Key, body: Body) returns (stored: bool)
      modifies this
      ensures stored <==> key !in old(objects)
      ensures objects == PutIfAbsent(old(objects), key, body)
    {
      if key in objects {
        return false;
      }
      objects := objects[key := body];
      return true;
    }

    method PutMatching(env: Env, key: Key, etag: string, body: Body) returns (stored: bool)
      modifies this
      ensures stored <==> Matches(env, old(objects), key, etag)
      ensures objects == PutIfMatch(env, old(objects), key, etag, body)
    {
      if key !in objects || env.etag(objects[key]) != etag {
        return false;
      }
      objects := objects[key := body];
      return true;
    }

    method Others(change: Store -> Store)
      modifies this
      ensures objects == change(old(objects))
    {
      objects := change(objects);
    }

    /** autoscan-server/ai_reanalysis.go, lines 195-209: an existing backup is as good as a new one. */
    method BackUpAndPut(env: Env, run: string, etag: string, body: Body, updated: Body, ghost reanalyze: Body -> Outcome, others: nat -> Store -> Store)
        returns (verdict: Verdict)
      modifies this
      ensures (verdict, objects) == Call(env, old(objects), run, Computed(etag, body, updated), reanalyze, others)
    {
      hide Current, IsRefreshOf;
      var created := PutNewObject(BackupKey(env, run, body), body);
      Others(others(1));
      assert Call(env, old(objects), run, Computed(etag, body, updated), reanalyze, others) ==
             Call(env, objects, run, BackedUp(etag, body, updated), reanalyze, others);
      var stored := PutMatching(env, Result(run), etag, updated);
      return if stored then Changed else Error;
    }

    /** autoscan-server/ai_reanalysis.go, lines 161-210 as one call, while others use the bucket between its requests. */
    method RefreshObject(env: Env, run: string, reanalyze: Body -> Outcome, others: nat -> Store -> Store) returns (verdict: Verdict)
      modifies this
      ensures (verdict, objects) == Call(env, old(objects), run, Idle, reanalyze, others)
    {
      hide Current, IsRefreshOf;
      var key := Result(run);
      var info := StatObject(env, key);
      if info.None? {
        return NoChange;
      }
      var (size, etag) := info.value;
      if size > MAX_BYTES || etag == "" {
        return Error;
      }
      Others(others(4));
      ghost var whole := Call(env, old(objects), run, Idle, reanalyze, others);
      assert whole == Call(env, objects, run, Stated(etag), reanalyze, others);
      var fetched := GetIfMatch(env, key, etag);
      if fetched.None? || env.size(fetched.value) > MAX_BYTES {
        return Error;
      }
      ghost var read := objects;
      Others(others(3));
      assert whole == Call(env, objects, run, Read(etag, fetched.value), reanalyze, others) by {
        assert Advance(env, read, run, Stated(etag), Get).phase == Read(etag, fetched.value);
      }
      var outcome := reanalyze(fetched.value);
      if !outcome.Updated? {
        return if outcome.Unchanged? then NoChange else Error;
      }
      if env.size(outcome.body) > MAX_BYTES {
        return Error;
      }
      Others(others(2));
      assert whole == Call(env, objects, run, Computed(etag, fetched.value, outcome.body), reanalyze, others);
      verdict := BackUpAndPut(env, run, etag, fetched.value, outcome.body, reanalyze, others);
    }
  }

  /** Left alone, a refreshable run of acceptable size is refreshed: the call answers "changed" and leaves the new body and the backup. */
  lemma UndisturbedRefreshSucceeds(env: Env, bodies: set<Body>, store: Store, run: string, reanalyze: Body -> Outcome, others: nat -> Store -> Store)
    requires Faithful(env, bodies) && (forall key :: key in store ==> store[key] in bodies)
    requires BackupsMatch(env, store) && Result(run) in store
    requires forall n: nat, m: Store :: others(n)(m) == m
    requires var body := store[Result(run)];
             && env.etag(body) != "" && env.size(body) <= MAX_BYTES
             && reanalyze(body).Updated? && env.size(reanalyze(body).body) <= MAX_BYTES
    ensures var body := store[Result(run)];
            var after := PutIfAbsent(store, BackupKey(env, run, body), body)[Result(run) := reanalyze(body).body];
            Call(env, store, run, Idle, reanalyze, others) == (Changed, after) && Saved(env, after, run, body)
  {
    hide IsRefreshOf, Current;
    var body := store[Result(run)];
    var etag, updated, kept := env.etag(body), reanalyze(body).body, PutIfAbsent(store, BackupKey(env, run, body), body);
    assert Call(env, store, run, Idle, reanalyze, others) == Call(env, store, run, Stated(etag), reanalyze, others);
    assert Call(env, store, run, Stated(etag), reanalyze, others) == Call(env, store, run, Read(etag, body), reanalyze, others);
    assert Call(env, store, run, Read(etag, body), reanalyze, others) == Call(env, store, run, Computed(etag, body, updated), reanalyze, others);
    assert Call(env, store, run, Computed(etag, body, updated), reanalyze, others) == Call(env, kept, run, BackedUp(etag, body, updated), reanalyze, others);
  }
}
