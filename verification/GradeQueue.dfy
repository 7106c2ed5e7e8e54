/** The grade queue: one slot shared by grade jobs, sandbox analyses and the saved-result refresh, with progress entries and the
    activity count, as atomic steps.  A job is the set of reporters it has under way, and reporters may arrive in any order. */
module GradeQueue {
  const ENTRY_TTL: nat := 900

  datatype Entry = Entry(fraction: real, stage: string, state: string, detail: string, updatedAt: nat)

  type Entries = map<string, Entry>

  const DONE: string := "done"
  const FAILED: string := "failed"

  datatype Kind = Grade | Sandbox | Refresh | Request

  /** A grade job ends in this order: slot released, progress final, caller told, context cancelled, unlisted, no longer active. */
  datatype Place = Waiting | Holding | Ending(ok: bool, message: string) | Final | Told | Stopped | Unlisted | Gone

  /** What has become of a job's context: the first cause stays. */
  datatype Context = Live | Canceled | DeadlineExceeded

  /** `pending` holds the fractions of reporters that have started but not yet reached the tracker. */
  datatype Task = Task(kind: Kind, token: string, place: Place, context: Context, pending: multiset<real>)

  type Tasks = map<nat, Task>

  datatype State = State(tasks: Tasks, slot: nat, active: int, lastDone: nat, jobs: map<string, nat>, entries: Entries, now: nat, exiting: bool)

  datatype Action = Submit(t: nat, token: string)
                  | Open(t: nat, token: string)
                  | StartPass(t: nat)
                  | Visit(t: nat)
                  | Spawn(t: nat, fraction: real)
                  | Deliver(t: nat, fraction: real, stage: string)
                  | Acquire(t: nat)
                  | GiveUp(t: nat)
                  | Release(t: nat, ok: bool, message: string)
                  | EndPass(t: nat)
                  | Settle(t: nat)
                  | End(t: nat)
                  | Cancel(token: string)
                  | Expire(t: nat)
                  | Tick(seconds: nat)
                  | IdleCheck(timeout: int)

  // ---------------------------------------------------------------- the progress tracker

  function Raised(entries: Entries, token: string, fraction: real): real {
    if token in entries && entries[token].fraction > fraction then entries[token].fraction else fraction
  }

  predicate Expired(e: Entry, now: nat) {
    now - e.updatedAt > ENTRY_TTL
  }

  /** Set and evict: an entry's fraction is never lowered, and every entry older than the limit goes. */
  function SetEntry(entries: Entries, token: string, fraction: real, stage: string, now: nat): Entries {
    var all := entries[token := Entry(Raised(entries, token, fraction), stage, "", "", now)];
    map key | key in all && !Expired(all[key], now) :: all[key]
  }

  function FinishEntry(entries: Entries, token: string, ok: bool, detail: string, now: nat): Entries {
    if token == "" then entries
    else
      var e := if token in entries then entries[token] else Entry(0.0, "", "", "", 0);
      entries[token := if ok then e.(fraction := 1.0, state := DONE, updatedAt := now) else e.(state := FAILED, detail := detail, updatedAt := now)]
  }

  /** A reporter without a token reports nothing. */
  function ReportEntry(entries: Entries, token: string, fraction: real, stage: string, now: nat): Entries {
    if token == "" then entries else SetEntry(entries, token, fraction, stage, now)
  }

  function DropEntry(entries: Entries, token: string): Entries {
    if token == "" then entries else entries - {token}
  }

  // ---------------------------------------------------------------- the activity count

  function IdleFor(active: int, lastDone: nat, now: nat): int {
    if active > 0 then 0 else now - lastDone
  }

  // ---------------------------------------------------------------- steps

  predicate Share(x: real) {
    0.0 <= x <= 1.0
  }

  predicate Listed(place: Place) {
    place.Waiting? || place.Holding? || place.Ending? || place.Final? || place.Told? || place.Stopped?
  }

  predicate Starts(a: Action) {
    a.Submit? || a.Open? || a.StartPass? || a.Visit?
  }

  predicate Passes(a: Action) {
    a.Tick? || a.IdleCheck?
  }

  function NewTask(a: Action): Task
    requires Starts(a)
  {
    match a
    case Submit(_, token) => Task(Grade, token, Waiting, Live, multiset{})
    case Open(_, token) => Task(Sandbox, token, Waiting, Live, multiset{})
    case StartPass(_) => Task(Refresh, "", Waiting, Live, multiset{})
    case Visit(_) => Task(Request, "", Unlisted, Live, multiset{})
  }

  /** When a task may take a step. */
  predicate Ready(task: Task, slot: nat, a: Action) {
    match a
    case Spawn(_, fraction) => Share(fraction) && (task.place.Holding? || (task.kind.Sandbox? && task.place.Waiting?))
    case Deliver(_, fraction, stage) => fraction in task.pending
    case Acquire(_) => task.place.Waiting? && slot == 0
    case GiveUp(_) => task.place.Waiting? && task.pending == multiset{} && (task.kind.Grade? ==> task.context != Live)
    case Release(_, ok, message) => task.place.Holding? && task.pending == multiset{}
    case EndPass(_) => task.kind.Refresh? && task.place.Waiting? && task.pending == multiset{}
    case Settle(_) => task.place.Ending? || task.place.Final? || task.place.Told? || task.place.Stopped?
    case End(_) => task.place.Unlisted?
    case Expire(_) => task.kind.Grade?
    case _ => true
  }

  /** Where a task goes when it gives up waiting, or releases the slot. */
  function Leaves(kind: Kind, released: bool, ok: bool, message: string): Place {
    if kind.Refresh? then (if released then Waiting else Unlisted) else Ending(ok, message)
  }

  function Stop(task: Task, why: Context): Task {
    if task.context.Live? then task.(context := why) else task
  }

  /** A failed job says it was cancelled when its context was, and otherwise gives its error. */
  function FinalDetail(task: Task): string
    requires task.place.Ending?
  {
    if task.context.Canceled? then "grading cancelled" else task.place.message
  }

  function Settled(task: Task): Task {
    if !task.kind.Grade? then task.(place := Unlisted)
    else match task.place
      case Ending(_, _) => task.(place := Final)
      case Final => task.(place := Told)
      case Told => Stop(task.(place := Stopped), Canceled)
      case _ => task.(place := Unlisted)
  }

  function NextTask(task: Task, a: Action): Task {
    match a
    case Spawn(_, fraction) => task.(pending := task.pending + multiset{fraction})
    case Deliver(_, fraction, stage) => task.(pending := task.pending - multiset{fraction})
    case Acquire(_) => task.(place := Holding)
    case GiveUp(_) => task.(place := Leaves(task.kind, false, false, "grading failed"))
    case Release(_, ok, message) => task.(place := Leaves(task.kind, true, ok, message))
    case EndPass(_) => task.(place := Unlisted)
    case Settle(_) => Settled(task)
    case End(_) => task.(place := Gone)
    case Cancel(_) => Stop(task, Canceled)
    case Expire(_) => Stop(task, DeadlineExceeded)
    case _ => task
  }

  /** The one task a step creates or moves. */
  function Mover(st: State, a: Action): nat
    requires !Passes(a) && (a.Cancel? ==> a.token in st.jobs)
  {
    if a.Cancel? then st.jobs[a.token] else a.t
  }

  predicate Enabled(st: State, a: Action) {
    if Passes(a) then true
    else if Starts(a) then a.t !in st.tasks && (a.Submit? ==> a.token != "" && a.token !in st.jobs)
    else (a.Cancel? ==> a.token in st.jobs) && Mover(st, a) in st.tasks && Ready(st.tasks[Mover(st, a)], st.slot, a)
  }

  function Moved(st: State, a: Action): Task
    requires Enabled(st, a) && !Passes(a)
  {
    if Starts(a) then NewTask(a) else NextTask(st.tasks[Mover(st, a)], a)
  }

  function NextSlot(slot: nat, a: Action): nat {
    if a.Acquire? then slot + 1 else if a.Release? && slot > 0 then slot - 1 else slot
  }

  function NextActive(active: int, a: Action): int {
    if Starts(a) then active + 1 else if a.End? then active - 1 else active
  }

  function NextJobs(st: State, a: Action): map<string, nat>
    requires Enabled(st, a)
  {
    if a.Submit? then st.jobs[a.token := a.t]
    else if a.Settle? && st.tasks[a.t].place.Stopped? then st.jobs - {st.tasks[a.t].token}
    else st.jobs
  }

  function NextEntries(st: State, a: Action): Entries
    requires Enabled(st, a)
  {
    match a
    case Submit(_, token) => SetEntry(st.entries, token, 0.01, "Queued", st.now)
    case Deliver(t, fraction, stage) => ReportEntry(st.entries, st.tasks[t].token, fraction, stage, st.now)
    case Settle(t) =>
      var task := st.tasks[t];
      if !task.place.Ending? then st.entries
      else if task.kind.Grade? then FinishEntry(st.entries, task.token, task.place.ok, FinalDetail(task), st.now)
      else DropEntry(st.entries, task.token)
    case _ => st.entries
  }

  function Apply(st: State, a: Action): State
    requires Enabled(st, a)
  {
    match a
    case Tick(seconds) => st.(now := st.now + seconds)
    case IdleCheck(timeout) => st.(exiting := st.exiting || IdleFor(st.active, st.lastDone, st.now) >= timeout)
    case _ =>
      State(st.tasks[Mover(st, a) := Moved(st, a)], NextSlot(st.slot, a), NextActive(st.active, a),
            if a.End? then st.now else st.lastDone, NextJobs(st, a), NextEntries(st, a), st.now, st.exiting)
  }

  // ---------------------------------------------------------------- the invariant

  function Where(tasks: Tasks, p: Task -> bool): set<nat> {
    set t | t in tasks && p(tasks[t])
  }

  predicate IsHolding(task: Task) {
    task.place.Holding?
  }

  predicate IsLive(task: Task) {
    !task.place.Gone?
  }

  /** The slot counts its holders, and there is at most one. */
  predicate SlotOk(tasks: Tasks, slot: nat) {
    slot == |Where(tasks, IsHolding)| && slot <= 1
  }

  predicate ActiveOk(tasks: Tasks, active: int) {
    active == |Where(tasks, IsLive)|
  }

  /** A task that reports is still at work; a request never waits for the slot; a job has a run id. */
  predicate TaskOk(task: Task) {
    && (task.kind.Grade? ==> task.token != "")
    && (task.pending != multiset{} ==> task.place.Holding? || (task.kind.Sandbox? && task.place.Waiting?))
    && (forall f :: f in task.pending ==> Share(f))
    && (task.kind.Request? ==> task.place.Unlisted? || task.place.Gone?)
    && (!task.kind.Grade? ==> !(task.place.Final? || task.place.Told? || task.place.Stopped?))
  }

  predicate TasksOk(tasks: Tasks) {
    forall t :: t in tasks ==> TaskOk(tasks[t])
  }

  /** The job table lists exactly the grade jobs that have not got past their own removal. */
  predicate JobsOk(tasks: Tasks, jobs: map<string, nat>) {
    && (forall token :: token in jobs ==>
          jobs[token] in tasks && tasks[jobs[token]].kind == Grade && tasks[jobs[token]].token == token && Listed(tasks[jobs[token]].place))
    && (forall t :: t in tasks && tasks[t].kind == Grade && Listed(tasks[t].place) ==> tasks[t].token in jobs && jobs[tasks[t].token] == t)
  }

  predicate EntriesOk(entries: Entries, now: nat) {
    forall token :: token in entries ==> Share(entries[token].fraction) && entries[token].updatedAt <= now
  }

  predicate Inv(st: State) {
    && SlotOk(st.tasks, st.slot) && ActiveOk(st.tasks, st.active) && TasksOk(st.tasks)
    && JobsOk(st.tasks, st.jobs) && EntriesOk(st.entries, st.now) && st.lastDone <= st.now
  }

  /** Replacing one task changes a count by that task alone. */
  lemma CountMoves(tasks: Tasks, t: nat, task: Task, p: Task -> bool)
    ensures |Where(tasks[t := task], p)| ==
            |Where(tasks, p)| - (if t in tasks && p(tasks[t]) then 1 else 0) + (if p(task) then 1 else 0)
  {
    var others := Where(tasks, p) - {t};
    assert Where(tasks[t := task], p) == if p(task) then others + {t} else others;
    if t in tasks && p(tasks[t]) {
      assert Where(tasks, p) == others + {t};
    } else {
      assert Where(tasks, p) == others;
    }
  }

  /** What a step does to the slot and the active count is what it does to the one that it moves. */
  lemma NextTaskCounts(task: Task, slot: nat, a: Action)
    requires Ready(task, slot, a) && TaskOk(task) && !Passes(a) && !Starts(a)
    ensures IsHolding(NextTask(task, a)) == (a.Acquire? || (IsHolding(task) && !a.Release?))
    ensures a.Acquire? ==> !IsHolding(task) && slot == 0
    ensures a.Release? ==> IsHolding(task)
    ensures IsLive(NextTask(task, a)) == (IsLive(task) && !a.End?)
    ensures a.End? ==> IsLive(task)
  {
  }

  lemma NextTaskIsOk(task: Task, slot: nat, a: Action)
    requires Ready(task, slot, a) && TaskOk(task) && !Passes(a) && !Starts(a)
    ensures TaskOk(NextTask(task, a))
  {
    match a {
      case Spawn(_, _) =>
      case Deliver(_, _, _) =>
      case GiveUp(_) =>
      case Release(_, _, _) =>
      case Settle(_) =>
      case _ =>
    }
  }

  lemma NextTaskIsListed(task: Task, slot: nat, a: Action)
    requires Ready(task, slot, a) && TaskOk(task) && !Passes(a) && !Starts(a)
    ensures NextTask(task, a).kind == task.kind && NextTask(task, a).token == task.token
    ensures ListedAs(NextTask(task, a)) == (ListedAs(task) && !(a.Settle? && task.place.Stopped?))
  {
    match a {
      case Settle(_) =>
      case _ =>
    }
  }

  lemma NewTaskCounts(a: Action)
    requires Starts(a) && (a.Submit? ==> a.token != "")
    ensures !IsHolding(NewTask(a)) && IsLive(NewTask(a)) && TaskOk(NewTask(a))
    ensures ListedAs(NewTask(a)) <==> a.Submit?
  {
  }

  lemma HolderIsCounted(tasks: Tasks, t: nat)
    requires t in tasks && IsHolding(tasks[t])
    ensures |Where(tasks, IsHolding)| > 0
  {
    assert t in Where(tasks, IsHolding);
  }

  lemma StepKeepsCounts(st: State, a: Action)
    requires Inv(st) && Enabled(st, a)
    ensures SlotOk(Apply(st, a).tasks, Apply(st, a).slot) && ActiveOk(Apply(st, a).tasks, Apply(st, a).active)
  {
    hide TaskOk, JobsOk, EntriesOk, Where, NextTask, NewTask, Ready, NextEntries, NextJobs, IsHolding, IsLive;
    if !Passes(a) {
      var t, task := Mover(st, a), Moved(st, a);
      CountMoves(st.tasks, t, task, IsHolding);
      CountMoves(st.tasks, t, task, IsLive);
      if Starts(a) {
        NewTaskCounts(a);
      } else {
        NextTaskCounts(st.tasks[t], st.slot, a);
        if a.Release? {
          HolderIsCounted(st.tasks, t);
        }
      }
    }
  }

  lemma StepKeepsTasks(st: State, a: Action)
    requires Inv(st) && Enabled(st, a)
    ensures TasksOk(Apply(st, a).tasks)
  {
    hide TaskOk, JobsOk, EntriesOk, SlotOk, ActiveOk, NextTask, NewTask, Ready, NextEntries, NextJobs;
    if Starts(a) {
      NewTaskCounts(a);
    } else if !Passes(a) {
      NextTaskIsOk(st.tasks[Mover(st, a)], st.slot, a);
    }
  }

  predicate ListedAs(task: Task) {
    task.kind == Grade && Listed(task.place)
  }

  /** A task keeps its kind, its token and its listing, and the table does not change. */
  lemma JobsFrame(tasks: Tasks, jobs: map<string, nat>, t: nat, task: Task)
    requires JobsOk(tasks, jobs)
    requires if t in tasks then task.kind == tasks[t].kind && task.token == tasks[t].token && ListedAs(task) == ListedAs(tasks[t]) else !ListedAs(task)
    ensures JobsOk(tasks[t := task], jobs)
  {
  }

  lemma JobsAdd(tasks: Tasks, jobs: map<string, nat>, t: nat, task: Task)
    requires JobsOk(tasks, jobs) && t !in tasks && ListedAs(task) && task.token !in jobs
    ensures JobsOk(tasks[t := task], jobs[task.token := t])
  {
  }

  lemma JobsDrop(tasks: Tasks, jobs: map<string, nat>, t: nat, task: Task)
    requires JobsOk(tasks, jobs) && t in tasks && ListedAs(tasks[t]) && !ListedAs(task)
    ensures JobsOk(tasks[t := task], jobs - {tasks[t].token})
  {
  }

  lemma StepKeepsJobs(st: State, a: Action)
    requires Inv(st) && Enabled(st, a)
    ensures JobsOk(Apply(st, a).tasks, Apply(st, a).jobs)
  {
    hide JobsOk, SlotOk, ActiveOk, EntriesOk, TaskOk, ListedAs, NextEntries, NextTask, NewTask, Ready;
    if Starts(a) {
      NewTaskCounts(a);
      if a.Submit? {
        SubmitIsListed(a);
        JobsAdd(st.tasks, st.jobs, a.t, NewTask(a));
      } else {
        JobsFrame(st.tasks, st.jobs, a.t, NewTask(a));
      }
    } else if !Passes(a) {
      var t := Mover(st, a);
      NextTaskIsListed(st.tasks[t], st.slot, a);
      if a.Settle? && st.tasks[t].place.Stopped? {
        StoppedIsListed(st.tasks[t]);
        JobsDrop(st.tasks, st.jobs, t, NextTask(st.tasks[t], a));
      } else {
        JobsFrame(st.tasks, st.jobs, t, NextTask(st.tasks[t], a));
      }
    }
  }

  lemma SubmitIsListed(a: Action)
    requires a.Submit?
    ensures NewTask(a).token == a.token
  {
  }

  lemma StoppedIsListed(task: Task)
    requires TaskOk(task) && task.place.Stopped?
    ensures ListedAs(task)
  {
  }

  lemma EntriesStayOk(entries: Entries, token: string, fraction: real, stage: string, ok: bool, now: nat)
    requires EntriesOk(entries, now) && Share(fraction)
    ensures EntriesOk(SetEntry(entries, token, fraction, stage, now), now)
    ensures EntriesOk(ReportEntry(entries, token, fraction, stage, now), now)
    ensures EntriesOk(FinishEntry(entries, token, ok, stage, now), now)
    ensures EntriesOk(DropEntry(entries, token), now)
  {
  }

  lemma LaterIsOk(st: State)
    requires EntriesOk(st.entries, st.now)
    ensures forall later :: st.now <= later ==> EntriesOk(st.entries, later)
  {
  }

  lemma StepKeepsEntries(st: State, a: Action)
    requires Inv(st) && Enabled(st, a)
    ensures EntriesOk(Apply(st, a).entries, Apply(st, a).now) && Apply(st, a).lastDone <= Apply(st, a).now
  {
    hide SlotOk, ActiveOk, JobsOk, SetEntry, FinishEntry, ReportEntry, DropEntry, EntriesOk, NextTask, NewTask;
    LaterIsOk(st);
    match a {
      case Submit(t, token) => EntriesStayOk(st.entries, token, 0.01, "Queued", false, st.now);
      case Deliver(t, fraction, stage) =>
        assert TaskOk(st.tasks[t]);
        EntriesStayOk(st.entries, st.tasks[t].token, fraction, stage, false, st.now);
      case Settle(t) =>
        if st.tasks[t].place.Ending? {
          EntriesStayOk(st.entries, st.tasks[t].token, 0.0, FinalDetail(st.tasks[t]), st.tasks[t].place.ok, st.now);
        }
      case _ =>
    }
  }

  lemma StepKeepsInv(st: State, a: Action)
    requires Inv(st) && Enabled(st, a)
    ensures Inv(Apply(st, a))
  {
    hide Apply, Enabled, SlotOk, ActiveOk, TasksOk, JobsOk, EntriesOk;
    StepKeepsCounts(st, a);
    StepKeepsTasks(st, a);
    StepKeepsJobs(st, a);
    StepKeepsEntries(st, a);
  }
}
