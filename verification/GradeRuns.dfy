/** What the grade queue guarantees over every schedule. */
module GradeRuns {
  import opened GradeQueue
  import opened Options
  import opened Runs
  import Pool = WorkerPool

  // ---------------------------------------------------------------- runs

  function Fresh(now: nat): State {
    State(map[], 0, 0, now, map[], map[], now, false)
  }

  function Next(st: State, a: Action): Option<State> {
    if Enabled(st, a) then Some(Apply(st, a)) else None
  }

  lemma FreshIsFine(now: nat)
    ensures Inv(Fresh(now))
  {
  }

  lemma InvAlways(st: State, actions: seq<Action>, n: nat)
    requires Inv(st) && Possible(Next, st, actions) && n <= |actions|
    ensures Inv(After(Next, st, actions, n))
  {
    hide Apply, Enabled, Inv, Possible, After;
    var among := (a: Action) => true;
    forall s, a | Inv(s) && among(a) && Next(s, a).Some? ensures Inv(Next(s, a).value) {
      StepKeepsInv(s, a);
    }
    AlwaysHolds(Next, Inv, among, st, actions, n);
  }

  // ---------------------------------------------------------------- the slot

  /** Over every schedule at most one grade job, sandbox analysis or refresh holds the slot. */
  lemma AtMostOneHolder(now: nat, actions: seq<Action>, n: nat, t: nat, u: nat)
    requires Possible(Next, Fresh(now), actions) && n <= |actions|
    requires var tasks := After(Next, Fresh(now), actions, n).tasks;
             t in tasks && u in tasks && tasks[t].place == Holding && tasks[u].place == Holding
    ensures t == u && After(Next, Fresh(now), actions, n).slot == 1
  {
    hide Possible, After, Fresh;
    FreshIsFine(now);
    InvAlways(Fresh(now), actions, n);
    var st := After(Next, Fresh(now), actions, n);
    hide TasksOk, JobsOk, EntriesOk, ActiveOk;
    var holders := Where(st.tasks, IsHolding);
    assert t in holders && u in holders;
    assert |holders - {t}| == |holders| - 1;
    assert holders - {t} == {};
  }

  function Acquires(actions: seq<Action>, t: nat): nat {
    if actions == [] then 0 else (if actions[0] == Acquire(t) then 1 else 0) + Acquires(actions[1..], t)
  }

  function Releases(actions: seq<Action>, t: nat): nat {
    if actions == [] then 0 else (if actions[0].Release? && actions[0].t == t then 1 else 0) + Releases(actions[1..], t)
  }

  predicate Holds(st: State, t: nat) {
    t in st.tasks && IsHolding(st.tasks[t])
  }

  lemma HoldsFollows(st: State, a: Action, t: nat)
    requires Inv(st) && Enabled(st, a)
    ensures Holds(Apply(st, a), t) == (a == Acquire(t) || (Holds(st, t) && !(a.Release? && a.t == t)))
    ensures a == Acquire(t) ==> !Holds(st, t)
    ensures a.Release? && a.t == t ==> Holds(st, t)
  {
    hide SlotOk, ActiveOk, JobsOk, EntriesOk, TaskOk, NextTask, NewTask, Ready, NextEntries, NextJobs, IsHolding;
    if Starts(a) {
      NewTaskCounts(a);
    } else if !Passes(a) {
      NextTaskCounts(st.tasks[Mover(st, a)], st.slot, a);
    }
  }

  /** Every acquire is released exactly once: a task's acquires and releases balance but for the slot it may hold right now. */
  lemma {:induction false} AcquiresAreReleasedOnce(st: State, actions: seq<Action>, t: nat)
    requires Inv(st) && Possible(Next, st, actions)
    ensures Acquires(actions, t) + (if Holds(st, t) then 1 else 0) ==
            Releases(actions, t) + (if Holds(After(Next, st, actions, |actions|), t) then 1 else 0)
    decreases |actions|
  {
    hide Apply, Enabled, Inv, Holds;
    if actions != [] {
      StepKeepsInv(st, actions[0]);
      HoldsFollows(st, actions[0], t);
      AcquiresAreReleasedOnce(Apply(st, actions[0]), actions[1..], t);
    }
  }

  /** The three steps by which a cancelled job leaves the queue. */
  function Withdraw(st: State, token: string, t: nat): (r: State)
    requires token in st.jobs && st.jobs[token] == t && t in st.tasks && st.tasks[t].kind.Grade?
    requires st.tasks[t].place.Waiting? && st.tasks[t].pending == multiset{} && st.tasks[t].context.Live?
    ensures r == st.(tasks := st.tasks[t := st.tasks[t].(context := Canceled, place := Final)],
                     entries := FinishEntry(st.entries, st.tasks[t].token, false, "grading cancelled", st.now))
  {
    hide SetEntry, FinishEntry, ReportEntry, DropEntry;
    var cancelled := Apply(st, Cancel(token));
    var out := Apply(cancelled, GiveUp(t));
    Apply(out, Settle(t))
  }

  /** A job cancelled while it waits can leave at once without ever touching the slot, and its entry says so. */
  lemma CancelledWaiterLeaves(st: State, token: string)
    requires Inv(st) && token in st.jobs && token != ""
    requires st.tasks[st.jobs[token]].place == Waiting && st.tasks[st.jobs[token]].context == Live
    ensures st.tasks[st.jobs[token]].kind.Grade? && st.tasks[st.jobs[token]].pending == multiset{}
    ensures var settled := Withdraw(st, token, st.jobs[token]);
            && settled.slot == st.slot && settled.tasks[st.jobs[token]].place == Final
            && token in settled.entries && settled.entries[token].state == FAILED && settled.entries[token].detail == "grading cancelled"
  {
    hide SlotOk, ActiveOk, EntriesOk;
    var t := st.jobs[token];
    assert TaskOk(st.tasks[t]);
    hide TasksOk, JobsOk, Withdraw;
  }

  // ---------------------------------------------------------------- progress

  /** No step lowers the fraction of an entry that stays in the table. */
  lemma FractionNeverFalls(st: State, a: Action, token: string)
    requires Inv(st) && Enabled(st, a) && token in st.entries && token in Apply(st, a).entries
    ensures st.entries[token].fraction <= Apply(st, a).entries[token].fraction
  {
    hide SlotOk, ActiveOk, JobsOk, TasksOk, NextTask, NewTask, Ready;
  }

  lemma {:induction false} FractionNeverFallsInRun(st: State, actions: seq<Action>, n: nat, token: string)
    requires Inv(st) && Possible(Next, st, actions) && n <= |actions|
    requires forall k :: 0 <= k <= n ==> token in After(Next, st, actions, k).entries
    ensures token in st.entries && st.entries[token].fraction <= After(Next, st, actions, n).entries[token].fraction
    decreases n
  {
    hide Apply, Enabled, Inv;
    assert token in After(Next, st, actions, 0).entries;
    if n > 0 {
      InvAlways(st, actions, n - 1);
      FractionNeverFallsInRun(st, actions, n - 1, token);
      AfterStep(Next, st, actions, n - 1);
      assert token in After(Next, st, actions, n - 1).entries && token in After(Next, st, actions, n).entries;
      FractionNeverFalls(After(Next, st, actions, n - 1), actions[n - 1], token);
    }
  }

  function Rank(place: Place): nat {
    match place
    case Waiting => 0
    case Holding => 0
    case Ending(_, _) => 1
    case Final => 2
    case Told => 3
    case Stopped => 4
    case Unlisted => 5
    case Gone => 6
  }

  /** A grade job past its progress's finish. */
  predicate Finished(st: State, t: nat) {
    t in st.tasks && st.tasks[t].kind.Grade? && Rank(st.tasks[t].place) >= 2
  }

  lemma NextTaskRanks(task: Task, slot: nat, a: Action)
    requires Ready(task, slot, a) && TaskOk(task) && !Passes(a) && !Starts(a) && task.kind.Grade?
    ensures Rank(task.place) <= Rank(NextTask(task, a).place) && NextTask(task, a).kind.Grade?
    ensures Rank(task.place) >= 2 ==> !a.Spawn? && !a.Deliver? && !(a.Settle? && task.place.Ending?)
  {
  }

  lemma FinishedStays(st: State, a: Action, t: nat)
    requires Inv(st) && Enabled(st, a) && Finished(st, t)
    ensures Finished(Apply(st, a), t)
    ensures !(a.Spawn? && a.t == t) && !(a.Deliver? && a.t == t)
    ensures a == Settle(t) ==> Apply(st, a).entries == st.entries
  {
    hide SlotOk, ActiveOk, JobsOk, EntriesOk, TaskOk, NextTask, Ready, Rank, NextJobs, SetEntry, FinishEntry, ReportEntry, DropEntry;
    if !Passes(a) && !Starts(a) && Mover(st, a) == t {
      NextTaskRanks(st.tasks[t], st.slot, a);
    }
  }

  /** After a job's progress is final, no reporter of that job starts or reaches the tracker in any continuation, and the job never
      touches its entry again. */
  lemma {:induction false} NoReportAfterFinish(st: State, actions: seq<Action>, m: nat, n: nat, t: nat)
    requires Inv(st) && Possible(Next, st, actions) && m <= n < |actions| && Finished(After(Next, st, actions, m), t)
    ensures Finished(After(Next, st, actions, n), t)
    ensures !(actions[n].Spawn? && actions[n].t == t) && !(actions[n].Deliver? && actions[n].t == t)
    ensures actions[n] == Settle(t) ==> After(Next, st, actions, n + 1).entries == After(Next, st, actions, n).entries
    decreases n - m
  {
    hide Apply, Enabled, Inv, After, Finished;
    if m < n {
      NoReportAfterFinish(st, actions, m, n - 1, t);
      AfterStep(Next, st, actions, n - 1);
      InvAlways(st, actions, n - 1);
      FinishedStays(After(Next, st, actions, n - 1), actions[n - 1], t);
    }
    AfterStep(Next, st, actions, n);
    InvAlways(st, actions, n);
    FinishedStays(After(Next, st, actions, n), actions[n], t);
  }

  /** What a step of a job's worker pool is in the queue: a report is under way once its index is taken, and arrives when it is finished. */
  function Reporting(t: nat, p: Pool.Pool, s: Pool.Step): Action
    requires p.n > 0
  {
    match s
    case Take(_) => Spawn(t, Pool.Fraction(p.next + 1, p.n))
    case Finish(_) => Deliver(t, Pool.Fraction(|p.finished| + 1, p.n), "Running submissions")
  }

  /** The job holds the slot, and its reporters under way are exactly the reports its pool owes. */
  ghost predicate Drives(st: State, t: nat, p: Pool.Pool) {
    Pool.Inv(p) && t in st.tasks && st.tasks[t].place == Holding && st.tasks[t].pending == Pool.Owed(p)
  }

  lemma ReporterGoes(st: State, t: nat, a: Action)
    requires t in st.tasks && st.tasks[t].place == Holding && (a.Spawn? || a.Deliver?) && a.t == t && Share(a.fraction)
    requires a.Deliver? ==> a.fraction in st.tasks[t].pending
    ensures Enabled(st, a) && t in Apply(st, a).tasks && Apply(st, a).tasks[t].place == Holding
    ensures Apply(st, a).tasks[t].pending ==
            if a.Spawn? then st.tasks[t].pending + multiset{a.fraction} else st.tasks[t].pending - multiset{a.fraction}
  {
    hide NextEntries, Share;
  }

  lemma ReportIsShare(p: Pool.Pool, workers: int, s: Pool.Step)
    requires Pool.Inv(p) && Pool.Enabled(p, workers, s)
    ensures p.n > 0 && Share(Pool.Fraction(if s.Take? then p.next + 1 else |p.finished| + 1, p.n))
  {
    hide Pool.InHand, Pool.Fraction;
    Pool.BusyIsCounted(p, workers, s);
    var k := if s.Take? then p.next else |p.finished|;
    Pool.FractionRises(k, k + 1, p.n);
  }

  lemma PoolStepReports(st: State, t: nat, p: Pool.Pool, workers: int, s: Pool.Step)
    requires Drives(st, t, p) && Pool.Enabled(p, workers, s)
    ensures p.n > 0 && Enabled(st, Reporting(t, p, s))
    ensures Drives(Apply(st, Reporting(t, p, s)), t, Pool.Apply(p, workers, s))
  {
    hide Pool.Owed, Pool.Inv, Pool.Apply, Pool.Enabled, Enabled, Apply, Pool.Fraction;
    Pool.OwedFollows(p, workers, s);
    Pool.BusyIsCounted(p, workers, s);
    ReportIsShare(p, workers, s);
    ReporterGoes(st, t, Reporting(t, p, s));
  }

  /** The queue's view of a pool's steps. */
  ghost function Reports(t: nat, p: Pool.Pool, workers: int, steps: seq<Pool.Step>): seq<Action>
    requires Pool.Inv(p) && Possible(Pool.Machine(workers), p, steps)
    decreases |steps|
  {
    if steps == [] then []
    else
      Pool.BusyIsCounted(p, workers, steps[0]);
      Pool.StepKeeps(p, workers, steps[0]);
      [Reporting(t, p, steps[0])] + Reports(t, Pool.Apply(p, workers, steps[0]), workers, steps[1..])
  }

  lemma {:induction false} QueueFollowsPool(st: State, t: nat, p: Pool.Pool, workers: int, steps: seq<Pool.Step>)
    requires Drives(st, t, p) && Possible(Pool.Machine(workers), p, steps)
    ensures var actions := Reports(t, p, workers, steps);
            Possible(Next, st, actions) && Drives(After(Next, st, actions, |actions|), t, Pool.Run(p, workers, steps))
    decreases |steps|
  {
    hide Drives, Enabled, Apply, Pool.Enabled, Pool.Apply, Pool.Inv, Reporting;
    if steps != [] {
      PoolStepReports(st, t, p, workers, steps[0]);
      QueueFollowsPool(Apply(st, Reporting(t, p, steps[0])), t, Pool.Apply(p, workers, steps[0]), workers, steps[1..]);
    }
  }

  /** A job's reporters are joined before it lets go of the slot: however its workers interleave, the queue can follow, and the job may
      release the slot exactly when no worker is busy. */
  lemma ReleaseWaitsForThePool(st: State, t: nat, p: Pool.Pool, workers: int, steps: seq<Pool.Step>, ok: bool, message: string)
    requires Drives(st, t, p) && Possible(Pool.Machine(workers), p, steps)
    ensures var actions := Reports(t, p, workers, steps);
            && Possible(Next, st, actions)
            && (Enabled(After(Next, st, actions, |actions|), Release(t, ok, message)) <==> Pool.Run(p, workers, steps).running == map[])
  {
    hide Pool.Owed, Pool.Inv, Possible, After;
    QueueFollowsPool(st, t, p, workers, steps);
    Pool.QuietOwesNothing(Pool.Run(p, workers, steps));
  }

  /** A report that arrives is recorded at once: the entry holds the larger of the reported and the earlier fraction, the reported stage and no
      outcome, and of the other entries exactly those survive that were updated within the last 900 seconds, unchanged. */
  lemma ReportIsRecorded(st: State, t: nat, fraction: real, stage: string, token: string)
    requires Inv(st) && Enabled(st, Deliver(t, fraction, stage)) && st.tasks[t].token != ""
    ensures var own, after := st.tasks[t].token, Apply(st, Deliver(t, fraction, stage)).entries;
            && own in after && after[own].stage == stage && after[own].state == "" && after[own].updatedAt == st.now
            && after[own].fraction >= fraction && (own in st.entries ==> after[own].fraction >= st.entries[own].fraction)
            && (after[own].fraction == fraction || (own in st.entries && after[own].fraction == st.entries[own].fraction))
            && (token != own ==> (token in after <==> token in st.entries && st.now - st.entries[token].updatedAt <= 900))
            && (token != own && token in after ==> after[token] == st.entries[token])
  {
    hide SlotOk, ActiveOk, JobsOk, TasksOk, NextTask;
  }

  /** Submitting a job lists it, counts it active and queues its entry at one hundredth or where an earlier report under its id left it. */
  lemma SubmitIsListed(st: State, t: nat, token: string)
    requires Inv(st) && Enabled(st, Submit(t, token))
    ensures var after := Apply(st, Submit(t, token));
            && token in after.jobs && after.jobs[token] == t && after.active == st.active + 1 && after.slot == st.slot
            && after.tasks[t].place == Waiting && after.tasks[t].context == Live && after.tasks[t].pending == multiset{}
            && token in after.entries && after.entries[token].stage == "Queued"
            && after.entries[token].fraction == (if token in st.entries && st.entries[token].fraction > 0.01 then st.entries[token].fraction else 0.01)
  {
    hide SlotOk, ActiveOk, JobsOk, TasksOk, EntriesOk;
  }

  /** Whoever waits may take the slot exactly when nobody holds it, and whoever holds it may give it back exactly when its reporters are joined. */
  lemma SlotIsGranted(st: State, t: nat, ok: bool, message: string)
    requires Inv(st) && t in st.tasks
    ensures Enabled(st, Acquire(t)) <==> st.tasks[t].place == Waiting && forall u :: u in st.tasks ==> st.tasks[u].place != Holding
    ensures Enabled(st, Release(t, ok, message)) <==> st.tasks[t].place == Holding && st.tasks[t].pending == multiset{}
  {
    hide ActiveOk, JobsOk, TasksOk, EntriesOk;
    var holders := Where(st.tasks, IsHolding);
    forall u | u in st.tasks ensures st.tasks[u].place == Holding <==> u in holders {
    }
    if st.slot == 0 {
      assert holders == {};
    } else {
      var u :| u in holders;
    }
  }

  /** A final entry changes its state only through another task that reports under the very same token, or through eviction or removal. */
  lemma FinalEntryStays(st: State, a: Action, t: nat)
    requires Inv(st) && Enabled(st, a) && Finished(st, t) && st.tasks[t].token in st.entries && st.entries[st.tasks[t].token].state != ""
    requires st.tasks[t].token in Apply(st, a).entries
    requires Apply(st, a).entries[st.tasks[t].token].state != st.entries[st.tasks[t].token].state
    ensures (!Passes(a) && !Starts(a) && Mover(st, a) != t && st.tasks[Mover(st, a)].token == st.tasks[t].token) || (a.Submit? && a.token == st.tasks[t].token)
  {
    hide SlotOk, ActiveOk, JobsOk, EntriesOk, NextJobs, Expired;
    FinishedStays(st, a, t);
  }

  /** A job that ends leaves its outcome in its entry, whether or not the entry had been evicted before. */
  lemma FinishRecordsOutcome(st: State, t: nat)
    requires Inv(st) && t in st.tasks && st.tasks[t].kind.Grade? && st.tasks[t].place.Ending?
    ensures var after, token, ok := Apply(st, Settle(t)), st.tasks[t].token, st.tasks[t].place.ok;
            && Finished(after, t) && token in after.entries
            && after.entries[token].state == (if ok then DONE else FAILED)
            && (ok ==> after.entries[token].fraction == 1.0)
            && (!ok && token in st.entries ==> after.entries[token].fraction == st.entries[token].fraction)
            && (!ok && st.tasks[t].context.Canceled? ==> after.entries[token].detail == "grading cancelled")
  {
    hide SlotOk, ActiveOk, JobsOk, EntriesOk;
    assert TaskOk(st.tasks[t]);
  }

  /** The caller is told only after the progress is final, and while the job is still listed and counted active, so that no idle exit
      with a positive timeout comes first. */
  lemma ToldBeforeLeaving(st: State, t: nat, timeout: int)
    requires Inv(st) && Enabled(st, Settle(t)) && Apply(st, Settle(t)).tasks[t].place.Told? && timeout > 0
    ensures Finished(st, t) && st.active > 0
    ensures st.tasks[t].token in st.jobs && st.jobs[st.tasks[t].token] == t
    ensures Apply(st, IdleCheck(timeout)).exiting == st.exiting
  {
    hide SlotOk, EntriesOk;
    assert TaskOk(st.tasks[t]);
    assert t in Where(st.tasks, IsLive);
  }

  // ---------------------------------------------------------------- idle exit

  /** With a positive timeout an idle exit means that nothing counted active is left: no job, analysis, refresh or request is under way,
      nobody holds the slot, and the last one ended at least the timeout ago. */
  lemma IdleExitIsSafe(st: State, timeout: int)
    requires Inv(st) && timeout > 0 && !st.exiting && Apply(st, IdleCheck(timeout)).exiting
    ensures forall t :: t in st.tasks ==> st.tasks[t].place == Gone
    ensures st.slot == 0 && st.jobs == map[] && st.now - st.lastDone >= timeout
  {
    hide EntriesOk, TasksOk;
    var live := Where(st.tasks, IsLive);
    assert |live| == 0;
    forall t | t in st.tasks ensures st.tasks[t].place == Gone {
      assert t !in live;
    }
    assert Where(st.tasks, IsHolding) == {};
    assert forall token :: token !in st.jobs;
  }

  /** With a positive timeout the check fires exactly when no task is left and the last one ended at least the timeout ago. */
  lemma IdleExitIff(st: State, timeout: int)
    requires Inv(st) && timeout > 0 && !st.exiting
    ensures Apply(st, IdleCheck(timeout)).exiting <==> (forall t :: t in st.tasks ==> st.tasks[t].place == Gone) && st.now - st.lastDone >= timeout
  {
    hide SlotOk, JobsOk, TasksOk, EntriesOk;
    var live := Where(st.tasks, IsLive);
    if forall t :: t in st.tasks ==> st.tasks[t].place == Gone {
      assert live == {};
    } else {
      var t :| t in st.tasks && st.tasks[t].place != Gone;
      assert t in live;
    }
  }

  /** While anything is active the check fires exactly when the timeout is not positive; the server only starts it with a positive one. */
  lemma IdleExitNeedsPositiveTimeout(st: State, timeout: int)
    requires Inv(st) && st.active > 0 && !st.exiting
    ensures Apply(st, IdleCheck(timeout)).exiting <==> timeout <= 0
  {
  }
}
