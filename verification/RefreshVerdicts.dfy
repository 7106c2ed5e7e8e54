/** What the answer of a refresh tells about the store. */
module RefreshVerdicts {
  import opened Options
  import opened SavedResult
  import opened RefreshProtocol

  /** Size and tag let the object be read. */
  predicate Readable(env: Env, body: Body) {
    env.size(body) <= MAX_BYTES && env.etag(body) != ""
  }

  /** Left alone, a call answers "changed" exactly for a readable run whose analysis was updated and fits, "no change" exactly for a missing run or
      a readable one that is current, and an error otherwise; only "changed" touches the store. */
  lemma UndisturbedVerdict(env: Env, store: Store, run: string, reanalyze: Body -> Outcome, others: nat -> Store -> Store)
    requires forall n: nat, m: Store :: others(n)(m) == m
    requires forall body :: Sound(body, reanalyze(body))
    ensures var (verdict, after) := Call(env, store, run, Idle, reanalyze, others);
            && (verdict == NoChange <==> Result(run) !in store || (Readable(env, store[Result(run)]) && Current(store[Result(run)])))
            && (verdict == Changed <==>
                  && Result(run) in store && Readable(env, store[Result(run)])
                  && reanalyze(store[Result(run)]).Updated? && env.size(reanalyze(store[Result(run)]).body) <= MAX_BYTES)
            && (verdict != Changed ==> after == store)
  {
    hide IsRefreshOf, Current;
    if Result(run) in store {
      UndisturbedPresent(env, store, run, reanalyze, others);
    }
  }

  lemma UndisturbedPresent(env: Env, store: Store, run: string, reanalyze: Body -> Outcome, others: nat -> Store -> Store)
    requires forall n: nat, m: Store :: others(n)(m) == m
    requires (forall body :: Sound(body, reanalyze(body))) && Result(run) in store
    ensures var (verdict, after) := Call(env, store, run, Idle, reanalyze, others);
            && (verdict == NoChange <==> Readable(env, store[Result(run)]) && Current(store[Result(run)]))
            && (verdict == Changed <==>
                  Readable(env, store[Result(run)])
                  && reanalyze(store[Result(run)]).Updated? && env.size(reanalyze(store[Result(run)]).body) <= MAX_BYTES)
            && (verdict != Changed ==> after == store)
  {
    hide IsRefreshOf, Current;
    var body := store[Result(run)];
    assert Sound(body, reanalyze(body));
    if Readable(env, body) {
      var etag := env.etag(body);
      assert Call(env, store, run, Idle, reanalyze, others) == Call(env, store, run, Stated(etag), reanalyze, others);
      assert Call(env, store, run, Stated(etag), reanalyze, others) == Call(env, store, run, Read(etag, body), reanalyze, others);
      if reanalyze(body).Updated? && env.size(reanalyze(body).body) <= MAX_BYTES {
        UndisturbedPut(env, store, run, body, reanalyze(body).body, reanalyze, others);
      }
    }
  }

  lemma UndisturbedPut(env: Env, store: Store, run: string, body: Body, updated: Body, reanalyze: Body -> Outcome, others: nat -> Store -> Store)
    requires forall n: nat, m: Store :: others(n)(m) == m
    requires Result(run) in store && store[Result(run)] == body && reanalyze(body) == Updated(updated) && env.size(updated) <= MAX_BYTES
    ensures Call(env, store, run, Read(env.etag(body), body), reanalyze, others).0 == Changed
  {
    hide IsRefreshOf, Current;
    var etag, kept := env.etag(body), PutIfAbsent(store, BackupKey(env, run, body), body);
    assert Call(env, store, run, Read(etag, body), reanalyze, others) == Call(env, store, run, Computed(etag, body, updated), reanalyze, others);
    assert Call(env, store, run, Computed(etag, body, updated), reanalyze, others) == Call(env, kept, run, BackedUp(etag, body, updated), reanalyze, others);
  }

  /** The call just wrote `updated` over a body with the tag it had read, and nothing else. */
  ghost predicate JustReplaced(env: Env, after: Store, run: string, body: Body, updated: Body, before: Store) {
    && Result(run) in before && env.etag(before[Result(run)]) == env.etag(body)
    && after == before[Result(run) := updated]
  }

  /** Whatever others do in between, "changed" means that this very call's last request replaced a body with the tag it had read by the new
      analysis of the body it had read; with tags that tell bodies apart, the replaced body is the one it had read. */
  lemma ChangedMeansReplaced(env: Env, store: Store, run: string, reanalyze: Body -> Outcome, others: nat -> Store -> Store)
    requires Call(env, store, run, Idle, reanalyze, others).0 == Changed
    ensures exists body, before :: reanalyze(body).Updated?
              && JustReplaced(env, Call(env, store, run, Idle, reanalyze, others).1, run, body, reanalyze(body).body, before)
  {
    hide IsRefreshOf, Current;
    ghost var whole := Call(env, store, run, Idle, reanalyze, others);
    var etag := env.etag(store[Result(run)]);
    var read := others(4)(store);
    assert whole == Call(env, read, run, Stated(etag), reanalyze, others);
    var body := read[Result(run)];
    var later := others(3)(read);
    assert whole == Call(env, later, run, Read(etag, body), reanalyze, others);
    ChangedFromRead(env, later, run, body, reanalyze, others);
  }

  lemma ChangedFromRead(env: Env, store: Store, run: string, body: Body, reanalyze: Body -> Outcome, others: nat -> Store -> Store)
    requires Call(env, store, run, Read(env.etag(body), body), reanalyze, others).0 == Changed
    ensures reanalyze(body).Updated?
    ensures exists before :: JustReplaced(env, Call(env, store, run, Read(env.etag(body), body), reanalyze, others).1, run, body, reanalyze(body).body, before)
  {
    hide IsRefreshOf, Current;
    var etag, updated := env.etag(body), reanalyze(body).body;
    var later := others(2)(store);
    assert Call(env, store, run, Read(etag, body), reanalyze, others) == Call(env, later, run, Computed(etag, body, updated), reanalyze, others);
    var last := others(1)(PutIfAbsent(later, BackupKey(env, run, body), body));
    assert Call(env, later, run, Computed(etag, body, updated), reanalyze, others) == Call(env, last, run, BackedUp(etag, body, updated), reanalyze, others);
    assert JustReplaced(env, Call(env, last, run, BackedUp(etag, body, updated), reanalyze, others).1, run, body, updated, last);
  }

  /** Whatever others do in between, a run that is missing at the start, or current when it is read, is left as it is. */
  lemma NothingToDo(env: Env, store: Store, run: string, reanalyze: Body -> Outcome, others: nat -> Store -> Store)
    requires forall body :: Sound(body, reanalyze(body))
    ensures Result(run) !in store ==> Call(env, store, run, Idle, reanalyze, others) == (NoChange, store)
    ensures var read := others(4)(store);
            Result(run) in store && Readable(env, store[Result(run)]) && Result(run) in read && env.etag(read[Result(run)]) == env.etag(store[Result(run)])
              && env.size(read[Result(run)]) <= MAX_BYTES && Current(read[Result(run)])
            ==> Call(env, store, run, Idle, reanalyze, others) == (NoChange, others(3)(read))
  {
    hide IsRefreshOf, Current;
    var read := others(4)(store);
    if Result(run) in store && Readable(env, store[Result(run)]) && Result(run) in read && env.etag(read[Result(run)]) == env.etag(store[Result(run)])
       && env.size(read[Result(run)]) <= MAX_BYTES && Current(read[Result(run)]) {
      var etag, body := env.etag(store[Result(run)]), read[Result(run)];
      assert Sound(body, reanalyze(body));
      assert Call(env, store, run, Idle, reanalyze, others) == Call(env, read, run, Stated(etag), reanalyze, others);
      assert Call(env, read, run, Stated(etag), reanalyze, others) == Call(env, others(3)(read), run, Read(etag, body), reanalyze, others);
    }
  }

  /** In every interleaving a worker that finishes with "changed" has in this step replaced the run's body, and one that finishes with "no change"
      found the run missing or read a current body, and leaves the store alone. */
  lemma VerdictTellsWhatHappened(env: Env, bodies: set<Body>, s: State, w: nat, step: Step)
    requires Faithful(env, bodies) && Within(s, bodies) && Inv(env, s) && Enabled(s, Work(w, step))
    requires Apply(env, s, Work(w, step)).workers[w].phase.Finished?
    ensures var phase, key, after := s.workers[w].phase, Result(s.workers[w].run), Apply(env, s, Work(w, step));
            var verdict := after.workers[w].phase.verdict;
            && (verdict == Changed ==> phase.BackedUp? && Stored(s.store, key) == Some(phase.body) && after.store == s.store[key := phase.updated])
            && (verdict == NoChange ==> (phase.Idle? && key !in s.store) || (phase.Read? && Current(phase.body)))
            && (verdict != Changed ==> after.store == s.store)
  {
    hide IsRefreshOf, Current;
    assert PhaseOk(env, s.store, s.workers[w].run, s.workers[w].phase);
  }
}
