/** Running one function per submission on a few workers that share a channel of indices. */
module WorkerPool {
  import opened Options
  import opened Runs

  /** `next` is the next index to hand out, `running` what each busy worker holds, `finished` the indices in the order they were completed,
      and `reports` the progress sent, one report per completion under one lock. */
  datatype Pool = Pool(n: nat, next: nat, running: map<nat, nat>, finished: seq<nat>, reports: seq<real>)

  datatype Step = Take(worker: nat) | Finish(worker: nat)

  const EXECUTE_START: real := 0.32
  const EXECUTE_END: real := 0.98

  function Fraction(executed: nat, n: nat): real
    requires n > 0
  {
    EXECUTE_START + (EXECUTE_END - EXECUTE_START) * (executed as real / n as real)
  }

  /** At least one worker is started. */
  function Started(workers: int): nat {
    if workers < 1 then 1 else workers
  }

  predicate Enabled(p: Pool, workers: int, s: Step) {
    match s
    case Take(worker) => worker < Started(workers) && worker !in p.running && p.next < p.n
    case Finish(worker) => worker in p.running
  }

  function Apply(p: Pool, workers: int, s: Step): Pool
    requires Enabled(p, workers, s)
  {
    match s
    case Take(worker) => p.(next := p.next + 1, running := p.running[worker := p.next])
    case Finish(worker) =>
      var finished := p.finished + [p.running[worker]];
      p.(running := p.running - {worker}, finished := finished, reports := p.reports + if p.n > 0 then [Fraction(|finished|, p.n)] else [])
  }

  function Machine(workers: int): (Pool, Step) -> Option<Pool> {
    (p, s) => if Enabled(p, workers, s) then Some(Apply(p, workers, s)) else None
  }

  function Run(p: Pool, workers: int, steps: seq<Step>): Pool
    requires Possible(Machine(workers), p, steps)
  {
    After(Machine(workers), p, steps, |steps|)
  }

  predicate InHand(p: Pool, i: nat) {
    exists w :: w in p.running && p.running[w] == i
  }

  ghost predicate Inv(p: Pool) {
    && p.next <= p.n
    && (forall i: nat :: (i in p.finished || InHand(p, i)) <==> i < p.next)
    && (forall i: nat :: i in p.finished ==> !InHand(p, i))
    && (forall v, w :: v in p.running && w in p.running && p.running[v] == p.running[w] ==> v == w)
    && (forall j, k :: 0 <= j < k < |p.finished| ==> p.finished[j] != p.finished[k])
    && |p.finished| + |p.running| == p.next
    && |p.reports| == |p.finished|
    && (p.n > 0 ==> forall k :: 0 <= k < |p.reports| ==> p.reports[k] == Fraction(k + 1, p.n))
  }

  function Start(n: nat): Pool {
    Pool(n, 0, map[], [], [])
  }

  lemma TakeKeeps(p: Pool, workers: int, worker: nat)
    requires Inv(p) && Enabled(p, workers, Take(worker))
    ensures Inv(Apply(p, workers, Take(worker)))
  {
    hide Fraction;
    var q := Apply(p, workers, Take(worker));
    assert !InHand(p, p.next);
    assert q.running.Keys == p.running.Keys + {worker};
    assert InHand(q, p.next) by { assert q.running[worker] == p.next; }
    forall i: nat | i != p.next ensures InHand(q, i) <==> InHand(p, i) {
      if InHand(p, i) {
        var w :| w in p.running && p.running[w] == i;
        assert q.running[w] == i;
      }
    }
    assert forall w :: w in p.running ==> p.running[w] != p.next;
  }

  lemma FinishKeeps(p: Pool, workers: int, worker: nat)
    requires Inv(p) && Enabled(p, workers, Finish(worker))
    ensures Inv(Apply(p, workers, Finish(worker)))
  {
    hide Fraction;
    var q, index := Apply(p, workers, Finish(worker)), p.running[worker];
    assert InHand(p, index);
    assert q.running.Keys == p.running.Keys - {worker};
    assert p.n > 0;
    forall i: nat ensures InHand(q, i) <==> InHand(p, i) && i != index {
      if InHand(p, i) && i != index {
        var w :| w in p.running && p.running[w] == i;
        assert q.running[w] == i;
      }
    }
    forall i: nat ensures i in q.finished <==> i in p.finished || i == index {
      assert q.finished == p.finished + [index];
    }
  }

  lemma InvAlways(p: Pool, workers: int, steps: seq<Step>)
    requires Inv(p) && Possible(Machine(workers), p, steps)
    ensures Inv(Run(p, workers, steps)) && Run(p, workers, steps).n == p.n
  {
    hide Inv, Possible, After;
    var inv, among := (q: Pool) => Inv(q) && q.n == p.n, (s: Step) => true;
    forall q, s | inv(q) && among(s) && Machine(workers)(q, s).Some? ensures inv(Machine(workers)(q, s).value) {
      StepKeeps(q, workers, s);
    }
    AlwaysHolds(Machine(workers), inv, among, p, steps, |steps|);
  }

  lemma StepKeeps(p: Pool, workers: int, s: Step)
    requires Inv(p) && Enabled(p, workers, s)
    ensures Inv(Apply(p, workers, s))
  {
    match s {
      case Take(worker) => TakeKeeps(p, workers, worker);
      case Finish(worker) => FinishKeeps(p, workers, worker);
    }
  }

  lemma StartIsFine(n: nat)
    ensures Inv(Start(n))
  {
  }

  /** However the workers interleave: when the channel is drained and nobody is busy, every index was processed exactly once, and the
      reports rose step by step to the end of the execution stage. */
  lemma EveryIndexOnce(n: nat, workers: int, steps: seq<Step>)
    requires Possible(Machine(workers), Start(n), steps)
    requires Run(Start(n), workers, steps).next == n && Run(Start(n), workers, steps).running == map[]
    ensures var p := Run(Start(n), workers, steps);
            && |p.finished| == n && |p.reports| == n
            && (forall i: nat :: i in p.finished <==> i < n)
            && (forall j, k :: 0 <= j < k < n ==> p.finished[j] != p.finished[k])
            && (n > 0 ==> p.reports[n - 1] == EXECUTE_END)
            && (forall j, k :: 0 <= j < k < n ==> EXECUTE_START < p.reports[j] < p.reports[k] <= EXECUTE_END)
  {
    StartIsFine(n);
    hide Inv, Run, Possible, Fraction;
    InvAlways(Start(n), workers, steps);
    NoRepeats(Run(Start(n), workers, steps));
    hide Start;
    DrainedPool(Run(Start(n), workers, steps));
    ReportsRise(Run(Start(n), workers, steps));
  }

  lemma NoRepeats(p: Pool)
    requires Inv(p)
    ensures forall j, k :: 0 <= j < k < |p.finished| ==> p.finished[j] != p.finished[k]
  {
    hide Fraction, InHand;
  }

  lemma DrainedPool(p: Pool)
    requires Inv(p) && p.next == p.n && p.running == map[]
    ensures |p.finished| == p.n && |p.reports| == p.n
    ensures forall i: nat :: i in p.finished <==> i < p.n
  {
    hide Fraction;
    forall i: nat ensures i in p.finished <==> i < p.n {
      assert !InHand(p, i);
    }
  }

  lemma ReportsRise(p: Pool)
    requires Inv(p) && |p.reports| == p.n
    ensures p.n > 0 ==> p.reports[p.n - 1] == EXECUTE_END
    ensures forall j, k :: 0 <= j < k < p.n ==> EXECUTE_START < p.reports[j] < p.reports[k] <= EXECUTE_END
  {
    hide Fraction, InHand;
    if p.n > 0 {
      assert p.reports[p.n - 1] == Fraction(p.n, p.n);
      FractionRises(p.n - 1, p.n, p.n);
    }
    forall j, k | 0 <= j < k < p.n ensures EXECUTE_START < p.reports[j] < p.reports[k] <= EXECUTE_END {
      assert p.reports[j] == Fraction(j + 1, p.n) && p.reports[k] == Fraction(k + 1, p.n);
      FractionRises(j + 1, k + 1, p.n);
    }
  }

  lemma FractionRises(j: nat, k: nat, n: nat)
    requires j < k <= n
    ensures EXECUTE_START <= Fraction(j, n) < Fraction(k, n) <= EXECUTE_END
    ensures j > 0 ==> EXECUTE_START < Fraction(j, n)
    ensures k == n ==> Fraction(k, n) == EXECUTE_END
  {
    var a, b := j as real / n as real, k as real / n as real;
    assert 0.0 <= a < b <= 1.0;
    assert j > 0 ==> a > 0.0;
    assert k == n ==> b == 1.0;
  }

  /** Whatever number of workers is asked for, the pool never gets stuck before it is done. */
  lemma NeverStuck(p: Pool, workers: int)
    requires p.next < p.n || p.running != map[]
    ensures exists s :: Enabled(p, workers, s)
  {
    if p.running == map[] {
      assert Enabled(p, workers, Take(0));
    } else {
      var worker :| worker in p.running;
      assert Enabled(p, workers, Finish(worker));
    }
  }

  // ---------------------------------------------------------------- the reports still owed

  /** The fractions of the next m reports after the first k. */
  function NextReports(k: nat, m: nat, n: nat): multiset<real>
    requires n > 0 || m == 0
  {
    if m == 0 then multiset{} else NextReports(k, m - 1, n) + multiset{Fraction(k + m, n)}
  }

  /** What the busy workers will report: each owes one report, and the fractions are handed out in the order of completion. */
  ghost function Owed(p: Pool): multiset<real>
    requires Inv(p)
  {
    NextReports(|p.finished|, |p.running|, p.n)
  }

  lemma {:induction false} FirstOfNext(k: nat, m: nat, n: nat)
    requires n > 0 && m > 0
    ensures NextReports(k, m, n) == NextReports(k + 1, m - 1, n) + multiset{Fraction(k + 1, n)}
  {
    hide Fraction;
    if m > 1 {
      FirstOfNext(k, m - 1, n);
    }
  }

  lemma LastOfNext(k: nat, m: nat, n: nat)
    requires n > 0
    ensures NextReports(k, m + 1, n) == NextReports(k, m, n) + multiset{Fraction(k + m + 1, n)}
  {
    hide Fraction;
  }

  /** Taking an index adds one report to those owed, and finishing one pays the least of them. */
  lemma OwedFollows(p: Pool, workers: int, s: Step)
    requires Inv(p) && Enabled(p, workers, s)
    ensures p.n > 0 && Inv(Apply(p, workers, s))
    ensures s.Take? ==> Owed(Apply(p, workers, s)) == Owed(p) + multiset{Fraction(p.next + 1, p.n)}
    ensures s.Finish? ==> Owed(p) == Owed(Apply(p, workers, s)) + multiset{Fraction(|p.finished| + 1, p.n)}
  {
    hide Inv, Fraction, Enabled, Apply, NextReports;
    StepKeeps(p, workers, s);
    BusyIsCounted(p, workers, s);
    var q, k, m := Apply(p, workers, s), |p.finished|, |p.running|;
    if s.Take? {
      assert Owed(q) == NextReports(k, m + 1, p.n);
      LastOfNext(k, m, p.n);
    } else {
      assert Owed(q) == NextReports(k + 1, m - 1, p.n);
      FirstOfNext(k, m, p.n);
    }
  }

  lemma BusyIsCounted(p: Pool, workers: int, s: Step)
    requires Inv(p) && Enabled(p, workers, s)
    ensures p.n > 0 && |p.finished| + |p.running| == p.next
    ensures Apply(p, workers, s).n == p.n && |Apply(p, workers, s).finished| == |p.finished| + if s.Take? then 0 else 1
    ensures |Apply(p, workers, s).running| == if s.Take? then |p.running| + 1 else |p.running| - 1
    ensures s.Finish? ==> |p.running| > 0
  {
    hide Fraction, InHand;
    var q := Apply(p, workers, s);
    match s {
      case Take(worker) =>
        assert q.running.Keys == p.running.Keys + {worker};
      case Finish(worker) =>
        assert q.running.Keys == p.running.Keys - {worker};
    }
  }

  lemma QuietOwesNothing(p: Pool)
    requires Inv(p)
    ensures Owed(p) == multiset{} <==> p.running == map[]
  {
    hide InHand, Fraction;
    assert |p.running| == 0 <==> p.running == map[];
    if |p.running| > 0 {
      assert Fraction(|p.finished| + |p.running|, p.n) in Owed(p);
    }
  }
}
