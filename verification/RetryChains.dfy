/** Results are final, and retries form chains that end. */
module RetryChains {
  import opened Basics
  import opened Operations
  import opened SchedulerSpec
  import opened SchedulerRuns

  /** The fields that tie a record to its plan, its chain and its deadline. */
  predicate SameLink(r: Record, q: Record) {
    r.id == q.id && r.plan == q.plan && r.revision == q.revision && r.hash == q.hash && r.parent == q.parent && r.root == q.root &&
    r.attempt == q.attempt && r.retryAt == q.retryAt && r.deadline == q.deadline
  }

  /** No record disappears or changes its links, and a terminal one keeps its result. */
  predicate Evolves(rs: Records, after: Records) {
    forall id :: id in rs ==>
      id in after && SameLink(rs[id], after[id]) &&
      (Terminal(rs[id].status) ==> after[id].status == rs[id].status && after[id].error == rs[id].error)
  }

  lemma FinishEvolves(w: World, op: Id, x: Result)
    requires WorkersRun(w) && op in w.workers && x.id !in w.records
    ensures Evolves(w.records, Finished(w, op, x).records)
  {
    hide NextAttempt, SameLink;
    SameLinks(w.records);
    SameResultLink(w.records[op], x);
  }

  lemma SameResultLink(r: Record, x: Result)
    ensures SameLink(r, r.(status := x.status, error := x.error, uploaded := false))
  {
  }

  /** A write to a new key, to a running record's result, or to a flag. */
  predicate Harmless(rs: Records, id: Id, r: Record) {
    id in rs ==> SameLink(rs[id], r) && (Terminal(rs[id].status) ==> r.status == rs[id].status && r.error == rs[id].error)
  }

  lemma PutEvolves(rs: Records, id: Id, r: Record)
    requires Harmless(rs, id, r)
    ensures Evolves(rs, rs[id := r])
  {
    SameLinks(rs);
    hide SameLink;
  }

  lemma SameLinks(rs: Records)
    ensures forall i :: i in rs ==> SameLink(rs[i], rs[i])
  {
  }

  lemma RecoveredEvolves(rs: Records)
    ensures Evolves(rs, Recovered(rs))
  {
  }

  lemma TickEvolves(w: World, d: Desired, c: Choice)
    ensures Evolves(w.records, Advance(w, d, TickPlan(c)).records)
  {
    SameLinks(w.records);
    if w.holder.Deciding? && w.holder.next < |d.plans| {
      var x := if c.fault then Nothing else Decide(w, d.key, d.plans[w.holder.next], w.holder.now, w.holder.seen, c);
      if x.Put? { PutEvolves(w.records, x.record.id, x.record); }
      hide Evolves, Decide;
    }
  }

  lemma WakeEvolves(w: World, op: Id, cancelled: bool, superseded: bool, fault: bool)
    requires WorkersRun(w) && op in w.workers
    ensures Evolves(w.records, Woken(w, op, cancelled, superseded, fault).records)
  {
    SameLinks(w.records);
    PutEvolves(w.records, op, w.records[op].(status := Canceled, error := if cancelled then "CANCELED" else "CONFIG_SUPERSEDED"));
    hide Evolves;
  }

  lemma DispatchEvolves(w: World, d: Desired, e: Event)
    requires (w.holder.Dispatching? ==> w.holder.job.op !in w.records) && (e.DispatchCheck? || e.DispatchPut?)
    ensures Evolves(w.records, Advance(w, d, e).records)
  {
    SameLinks(w.records);
    var v := Advance(w, d, e);
    if v.records != w.records {
      var op := if e.DispatchCheck? then e.job.op else w.holder.job.op;
      assert op !in w.records;
      PutEvolves(w.records, op, v.records[op]);
      hide Evolves, RunningIds, RunningOf;
    }
  }

  /** No writer ever changes the status of a terminal record. */
  lemma StepEvolves(w: World, d: Desired, e: Event)
    requires Sane(w) && Possible(w, e)
    ensures Evolves(w.records, Advance(w, d, e).records)
  {
    assert Evolves(w.records, w.records);
    match e {
      case Finish(op, x, fault) => if op in w.workers { FinishEvolves(w, op, x); } hide Finished, Evolves;
      case TickPlan(c) => TickEvolves(w, d, c);
      case DispatchCheck(_, _, _, _) => DispatchEvolves(w, d, e);
      case DispatchPut(fault) => DispatchEvolves(w, d, e);
      case Wake(op, cancelled, superseded, fault) =>
        if op in w.workers { WakeEvolves(w, op, cancelled, superseded, fault); }
        hide Woken, Evolves;
      case Report(op) =>
        if op in w.records { PutEvolves(w.records, op, w.records[op].(uploaded := true)); }
        hide Evolves;
      case Restart => RecoveredEvolves(w.records);
      case _ => hide Evolves;
    }
  }

  lemma {:induction false} TerminalIsFinal(w: World, d: Desired, es: seq<Event>, n: nat, id: Id)
    requires Start(w) && PossibleRun(w, d, es) && n <= |es|
    requires id in Run(w, d, es[..n]).records && Terminal(Run(w, d, es[..n]).records[id].status)
    ensures id in Run(w, d, es).records
    ensures Run(w, d, es).records[id].status == Run(w, d, es[..n]).records[id].status
    ensures Run(w, d, es).records[id].error == Run(w, d, es[..n]).records[id].error
    decreases |es|
  {
    if n == |es| {
      assert es[..n] == es;
    } else {
      var before := es[..|es| - 1];
      assert before[..n] == es[..n];
      TerminalIsFinal(w, d, before, n, id);
      RunInv(w, d, before);
      hide Advance, Inv;
      StepEvolves(Run(w, d, before), d, es[|es| - 1]);
    }
  }

  // ----- chains -----

  /**
    A locally created attempt follows a FAILED parent with a retryable error: one
    attempt later, under the same root and plan, before a deadline that has not grown.
   */
  predicate Linked(rs: Records, r: Record) {
    r.retryAt.Some? ==>
      && r.parent.Some? && r.parent.value in rs
      && var q := rs[r.parent.value];
         && q.status == Failed && RetryableError(q.error)
         && r.plan == q.plan && r.revision == q.revision && r.hash == q.hash
         && r.attempt == AttemptOf(q) + 1 && r.root == (if q.root.Some? then q.root else Some(q.id))
         && r.deadline.Some? && r.retryAt.value < r.deadline.value
         && (q.deadline.Some? ==> r.deadline.value <= q.deadline.value)
  }

  predicate Chained(rs: Records) {
    && (forall id :: id in rs ==> Linked(rs, rs[id]))
    && (forall a, b :: a in rs && b in rs && rs[a].retryAt.Some? && rs[b].retryAt.Some? && rs[a].parent == rs[b].parent ==> a == b)
  }

  /** A worker knows its record's deadline and stays within its plan's attempts. */
  predicate WorkersChained(w: World) {
    forall id :: id in w.workers && id in w.records && w.records[id].retryAt.Some? ==>
      && w.records[id].deadline == Some(w.workers[id].deadline)
      && w.workers[id].plan.retry.Some? && w.records[id].attempt <= Attempts(w.workers[id].plan.retry.value)
  }

  predicate ChainInv(w: World) {
    && Chained(w.records) && WorkersChained(w)
    && (forall id :: id in w.records && w.records[id].retryAt.None? ==> w.records[id].deadline.None?)
  }

  /** Each successor moves strictly closer to the attempts its policy allows. */
  lemma {:induction false} SuccessorDescends(rts: map<Id, Runtime>, r: Record, plan: Plan, deadline: Time, allowed: bool, current: bool, now: Time, id: Id)
    ensures var n := NextAttempt(rts, r, plan, deadline, allowed, current, now, id);
            n.Some? ==>
              && plan.retry.Some? && r.status == Failed && RetryableError(r.error)
              && 0 <= Attempts(plan.retry.value) - n.value.attempt < Attempts(plan.retry.value) - AttemptOf(r)
              && n.value.attempt == AttemptOf(r) + 1 && n.value.parent == Some(r.id) && n.value.root == Some(RootOf(r))
              && n.value.retryAt.Some? && n.value.deadline.Some? && n.value.retryAt.value < n.value.deadline.value <= deadline
              && n.value.id == id && n.value.status == Running && n.value.plan == r.plan && n.value.revision == r.revision && n.value.hash == r.hash
  {
    hide BackoffOf;
  }

  lemma LinkStays(rs: Records, after: Records, r: Record, q: Record)
    requires Evolves(rs, after) && Linked(rs, r) && SameLink(r, q)
    ensures Linked(after, q)
  {
  }

  /** Records that evolve, with no new local attempt, stay chained. */
  lemma EvolvedStaysChained(rs: Records, after: Records)
    requires Chained(rs) && Evolves(rs, after)
    requires forall id :: id in after && id !in rs ==> after[id].retryAt.None?
    ensures Chained(after)
  {
    forall id | id in after ensures Linked(after, after[id]) {
      if id in rs { LinkStays(rs, after, rs[id], after[id]); }
    }
    hide Linked;
  }

  /** A failed record gains its only successor. */
  lemma SuccessorChains(rs: Records, n: Record, parent: Id)
    requires Chained(rs) && n.id !in rs && n.parent == Some(parent) && Linked(rs, n)
    requires forall id :: id in rs && rs[id].retryAt.Some? ==> rs[id].parent != Some(parent)
    ensures Chained(rs[n.id := n])
  {
    var after := rs[n.id := n];
    forall id | id in after ensures Linked(after, after[id]) {
      if id in rs { LinkStays(rs, after, rs[id], rs[id]); } else { LinkStays(rs, after, n, n); }
    }
    hide Linked;
  }

  lemma FinishChains(w: World, d: Desired, op: Id, x: Result)
    requires Inv(w, d) && ChainInv(w) && op in w.workers && Terminal(x.status) && x.id !in w.records
    ensures ChainInv(Finished(w, op, x))
  {
    hide NextAttempt, RunningIds, RunningOf, HolderFits, Chained, Evolves;
    var k := w.workers[op];
    var r := w.records[op].(status := x.status, error := x.error, uploaded := false);
    var rs := w.records[op := r];
    var next := NextAttempt(w.runtimes, r, k.plan, k.deadline, x.allowed, x.current, x.now, x.id);
    SuccessorDescends(w.runtimes, r, k.plan, k.deadline, x.allowed, x.current, x.now, x.id);
    PutEvolves(w.records, op, r);
    assert rs.Keys == w.records.Keys;
    EvolvedStaysChained(w.records, rs);
    if next.Some? {
      NoSuccessorYet(w, op, rs);
      SuccessorLinked(rs, r, next.value, k);
      hide Linked;
      SuccessorChains(rs, next.value, op);
    }
    FinishedWorkers(w, d, op, x);
    hide Linked, WorkersChained, WorkersRun;
  }

  lemma SuccessorLinked(rs: Records, r: Record, n: Record, k: Worker)
    requires r.id in rs && rs[r.id] == r && r.status == Failed && RetryableError(r.error)
    requires n.parent == Some(r.id) && n.root == Some(RootOf(r)) && n.attempt == AttemptOf(r) + 1
    requires n.plan == r.plan && n.revision == r.revision && n.hash == r.hash
    requires n.retryAt.Some? && n.deadline.Some? && n.retryAt.value < n.deadline.value <= k.deadline
    requires r.deadline.Some? ==> r.deadline == Some(k.deadline)
    ensures Linked(rs, n)
  {
  }

  /** The workers that are left, and the one that waits for the successor. */
  lemma FinishedWorkers(w: World, d: Desired, op: Id, x: Result)
    requires WorkersRun(w) && WorkersChained(w) && op in w.workers && x.id !in w.records
    requires forall id :: id in w.records && w.records[id].retryAt.None? ==> w.records[id].deadline.None?
    ensures var v := Finished(w, op, x);
            WorkersChained(v) && forall id :: id in v.records && v.records[id].retryAt.None? ==> v.records[id].deadline.None?
  {
    hide NextAttempt;
    var k := w.workers[op];
    var r := w.records[op].(status := x.status, error := x.error, uploaded := false);
    SuccessorDescends(w.runtimes, r, k.plan, k.deadline, x.allowed, x.current, x.now, x.id);
  }

  /** A record that is still running has no local successor: every parent has failed. */
  lemma NoSuccessorYet(w: World, op: Id, rs: Records)
    requires Chained(w.records) && op in w.records && w.records[op].status == Running
    requires forall id :: id in rs ==> id in w.records && rs[id].parent == w.records[id].parent && rs[id].retryAt == w.records[id].retryAt
    ensures forall id :: id in rs && rs[id].retryAt.Some? ==> rs[id].parent != Some(op)
  {
    forall id | id in rs && rs[id].retryAt.Some? ensures rs[id].parent != Some(op) {
      assert Linked(w.records, w.records[id]);
    }
  }

  /** Apart from a finishing worker, no step starts a local attempt or moves a worker's deadline. */
  predicate NoNewAttempt(w: World, v: World) {
    && (forall id :: id in v.records && id !in w.records ==> v.records[id].retryAt.None? && v.records[id].deadline.None?)
    && (forall id :: id in v.workers && id in w.records ==>
          id in w.workers && v.workers[id].plan == w.workers[id].plan && v.workers[id].deadline == w.workers[id].deadline)
  }

  lemma KeepsChains(w: World, v: World)
    requires WorkersRun(w) && WorkersRun(v) && ChainInv(w) && Evolves(w.records, v.records) && NoNewAttempt(w, v)
    ensures ChainInv(v)
  {
    EvolvedStaysChained(w.records, v.records);
    hide Chained;
  }

  lemma SchedulerStartsNoAttempt(w: World, d: Desired, e: Event)
    requires Inv(w, d) && (e.TickPlan? || e.DispatchPut? || e.DispatchCheck?)
    ensures NoNewAttempt(w, Advance(w, d, e))
  {
    hide RunningIds, RunningOf, ConcurrencySkip, JobPlan, Decide;
    if e.TickPlan? && w.holder.Deciding? && w.holder.next < |d.plans| {
      Decided(w, d.key, d.plans[w.holder.next], w.holder.now, w.holder.seen, e.choice);
    }
  }

  lemma OthersStartNoAttempt(w: World, d: Desired, e: Event)
    requires Inv(w, d) && !e.TickPlan? && !e.DispatchPut? && !e.DispatchCheck?
    requires e.Finish? ==> e.fault || e.op !in w.workers || w.workers[e.op].waiting
    ensures NoNewAttempt(w, Advance(w, d, e))
  {
    hide RunningIds, RunningOf, RunningPlans, HolderFits, ConcurrencySkip, JobPlan, NextAttempt, NoNewAttempt;
    match e
    case Finish(op, _, _) => LessWorkers(w, op);
    case Wake(op, cancelled, superseded, fault) =>
      if op in w.workers { WakeNoAttempt(w, op, cancelled, superseded, fault); }
      hide Woken;
      LessWorkers(w, op);
    case Report(op) => if op in w.records { FlagNoAttempt(w, op); }
      LessWorkers(w, op);
    case Restart => RestartNoAttempt(w);
    case _ => HolderNoAttempt(w, Advance(w, d, e));
  }

  lemma LessWorkers(w: World, op: Id)
    ensures NoNewAttempt(w, w) && NoNewAttempt(w, w.(workers := w.workers - {op}))
  {
  }

  lemma WakeNoAttempt(w: World, op: Id, cancelled: bool, superseded: bool, fault: bool)
    requires op in w.workers && op in w.records
    ensures NoNewAttempt(w, Woken(w, op, cancelled, superseded, fault))
  {
  }

  lemma FlagNoAttempt(w: World, op: Id)
    requires op in w.records
    ensures NoNewAttempt(w, w.(records := w.records[op := w.records[op].(uploaded := true)]))
  {
  }

  lemma RestartNoAttempt(w: World)
    ensures NoNewAttempt(w, World(Recovered(w.records), w.runtimes, map[], Free))
  {
  }

  lemma HolderNoAttempt(w: World, v: World)
    requires v.records == w.records && v.workers == w.workers
    ensures NoNewAttempt(w, v)
  {
  }

  lemma StepChains(w: World, d: Desired, e: Event)
    requires Inv(w, d) && ChainInv(w) && Possible(w, e)
    ensures ChainInv(Advance(w, d, e))
  {
    if e.Finish? && e.op in w.workers && !e.fault && !w.workers[e.op].waiting {
      FinishChains(w, d, e.op, e.result);
      hide Finished, ChainInv;
    } else {
      StepEvolves(w, d, e);
      StepInv(w, d, e);
      if e.TickPlan? || e.DispatchPut? || e.DispatchCheck? { SchedulerStartsNoAttempt(w, d, e); } else { OthersStartNoAttempt(w, d, e); }
      hide Advance, ChainInv, Evolves, NoNewAttempt;
      KeepsChains(w, Advance(w, d, e));
    }
  }

  lemma {:induction false} RunChains(w: World, d: Desired, es: seq<Event>)
    requires Start(w) && ChainInv(w) && PossibleRun(w, d, es)
    ensures ChainInv(Run(w, d, es))
  {
    if es != [] {
      RunChains(w, d, es[..|es| - 1]);
      RunInv(w, d, es[..|es| - 1]);
      StepChains(Run(w, d, es[..|es| - 1]), d, es[|es| - 1]);
    }
  }

  /** Finishing an attempt and creating its successor is one step that keeps the running count. */
  lemma {:induction false} RetryKeepsCount(w: World, d: Desired, es: seq<Event>, op: Id, x: Result)
    requires Start(w) && PossibleRun(w, d, es)
    requires var u := Run(w, d, es);
             Possible(u, Finish(op, x, false)) && op in u.workers && !u.workers[op].waiting && x.id in Advance(u, d, Finish(op, x, false)).records
    ensures var u := Run(w, d, es); var v := Advance(u, d, Finish(op, x, false));
            && |RunningIds(v.records)| == |RunningIds(u.records)|
            && op in v.records && v.records[op].status == Failed && v.records[x.id].status == Running && x.id in v.workers
  {
    var u := Run(w, d, es);
    RunInv(w, d, es);
    FinishCounts(u, op, x);
    var k, r := u.workers[op], u.records[op].(status := x.status, error := x.error, uploaded := false);
    SuccessorDescends(u.runtimes, r, k.plan, k.deadline, x.allowed, x.current, x.now, x.id);
    hide NextAttempt, RunningIds, RunningOf, HolderFits;
  }
}
