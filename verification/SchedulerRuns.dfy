/** What every interleaving of ticks, dispatches, workers, retries and restarts keeps. */
module SchedulerRuns {
  import opened Basics
  import opened Operations
  import opened SchedulerSpec

  // ----- counting -----

  lemma RunningAfterPut(rs: Records, id: Id, r: Record)
    ensures RunningIds(rs[id := r]) == if r.status == Running then RunningIds(rs) + {id} else RunningIds(rs) - {id}
  {
  }

  lemma RunningOfAfterPut(rs: Records, id: Id, r: Record, p: Id)
    ensures RunningOf(rs[id := r], p) ==
            if r.status == Running && r.plan == p then RunningOf(rs, p) + {id} else RunningOf(rs, p) - {id}
  {
  }

  /** A record that is or becomes terminal never adds to a count. */
  lemma CountsFall(rs: Records, id: Id, r: Record, p: Id)
    requires Terminal(r.status)
    ensures |RunningIds(rs[id := r])| <= |RunningIds(rs)| && |RunningOf(rs[id := r], p)| <= |RunningOf(rs, p)|
    ensures RunningOf(rs[id := r], p) <= RunningOf(rs, p)
  {
    RunningAfterPut(rs, id, r);
    RunningOfAfterPut(rs, id, r, p);
    Smaller(RunningIds(rs[id := r]), RunningIds(rs));
    Smaller(RunningOf(rs[id := r], p), RunningOf(rs, p));
  }

  lemma Smaller(a: set<Id>, b: set<Id>)
    requires a <= b
    ensures |a| <= |b|
  {
    assert b == a + (b - a);
  }

  // ----- what every step keeps -----

  predicate WorkersRun(w: World) {
    && (forall id :: id in w.records ==> w.records[id].id == id)
    && (forall id :: id in w.workers ==> id in w.records && w.records[id].status == Running)
  }

  /** What the holder of the mutex has checked about the capacity stays true while workers go on. */
  predicate HolderFits(w: World, d: Desired) {
    match w.holder
    case Free => true
    case Scanning(_, _, _) => true
    case Deciding(seen, next, _) =>
      next < |d.plans| ==> HasCapacity(w, d) || ConcurrencySkip(d.plans[next].policy, d.plans[next].id in seen)
    case Dispatching(job) => job.op !in w.records && HasCapacity(w, d)
  }

  /** What does not depend on the configuration: a job that is about to be stored is still new. */
  predicate Sane(w: World) {
    WorkersRun(w) && (w.holder.Dispatching? ==> w.holder.job.op !in w.records)
  }

  predicate Inv(w: World, d: Desired) {
    WorkersRun(w) && |RunningIds(w.records)| <= d.maxJobs && HolderFits(w, d)
  }

  /** Every entry under the identifier forbids overlap. */
  predicate Exclusive(d: Desired, p: Id) {
    forall j :: 0 <= j < |d.plans| && d.plans[j].id == p ==> Forbids(d.plans[j])
  }

  /** At most one run of the plan, and none when the holder of the mutex believes so. */
  predicate Single(w: World, d: Desired, p: Id) {
    && |RunningOf(w.records, p)| <= 1
    && match w.holder
       case Free => true
       case Scanning(seen, _, _) => p !in seen ==> RunningOf(w.records, p) == {}
       case Deciding(seen, _, _) => p !in seen ==> RunningOf(w.records, p) == {}
       case Dispatching(job) => JobPlan(d, job).Some? && job.plan == p ==> RunningOf(w.records, p) == {}
  }

  /** No more runs than before, in all and of any plan. */
  ghost predicate Fewer(rs: Records, after: Records) {
    |RunningIds(after)| <= |RunningIds(rs)| && forall p :: |RunningOf(after, p)| <= |RunningOf(rs, p)|
  }

  lemma PutTerminal(rs: Records, id: Id, r: Record)
    requires Terminal(r.status)
    ensures Fewer(rs, rs[id := r])
  {
    CountsFall(rs, id, r, 0);
    forall p ensures |RunningOf(rs[id := r], p)| <= |RunningOf(rs, p)| { CountsFall(rs, id, r, p); }
  }

  /** A worker's record becomes terminal, and perhaps its successor takes its place. */
  lemma ReplaceKeeps(w: World, op: Id, r: Record, next: Option<Record>)
    requires WorkersRun(w) && op in w.records && w.records[op].status == Running && Terminal(r.status)
    requires next.Some? ==> next.value.id !in w.records && next.value.status == Running && next.value.plan == w.records[op].plan
    ensures var rs := w.records[op := r];
            var after := if next.Some? then rs[next.value.id := next.value] else rs;
            Fewer(w.records, after) && (next.Some? ==> |RunningIds(after)| == |RunningIds(w.records)|)
  {
    var rs := w.records[op := r];
    RunningAfterPut(w.records, op, r);
    assert op in RunningIds(w.records);
    if next.Some? { RunningAfterPut(rs, next.value.id, next.value); }
    forall p ensures |RunningOf(if next.Some? then rs[next.value.id := next.value] else rs, p)| <= |RunningOf(w.records, p)| {
      CountsFall(w.records, op, r, p);
      RunningOfAfterPut(w.records, op, r, p);
      if next.Some? {
        RunningOfAfterPut(rs, next.value.id, next.value, p);
        assert p == next.value.plan ==> op in RunningOf(w.records, p);
      }
    }
  }

  lemma {:induction false} FinishCounts(w: World, op: Id, x: Result)
    requires WorkersRun(w) && Possible(w, Finish(op, x, false)) && op in w.workers
    ensures WorkersRun(Finished(w, op, x)) && Fewer(w.records, Finished(w, op, x).records)
    ensures var k, r := w.workers[op], w.records[op].(status := x.status, error := x.error, uploaded := false);
            NextAttempt(w.runtimes, r, k.plan, k.deadline, x.allowed, x.current, x.now, x.id).Some? ==>
              |RunningIds(Finished(w, op, x).records)| == |RunningIds(w.records)|
  {
    var k := w.workers[op];
    var r := w.records[op].(status := x.status, error := x.error, uploaded := false);
    var next := NextAttempt(w.runtimes, r, k.plan, k.deadline, x.allowed, x.current, x.now, x.id);
    ReplaceKeeps(w, op, r, next);
    hide RunningIds, RunningOf, NextAttempt, BackoffOf, Fewer;
  }

  lemma WakeCounts(w: World, op: Id, cancelled: bool, superseded: bool, fault: bool)
    requires WorkersRun(w) && op in w.workers
    ensures var v := Woken(w, op, cancelled, superseded, fault); WorkersRun(v) && Fewer(w.records, v.records)
  {
    var v := Woken(w, op, cancelled, superseded, fault);
    if v.records != w.records { ReplaceKeeps(w, op, v.records[op], None); }
    hide RunningIds, RunningOf;
  }

  lemma RestartCounts(rs: Records)
    ensures RunningIds(Recovered(rs)) == {} && Fewer(rs, Recovered(rs))
  {
    assert forall p :: RunningOf(Recovered(rs), p) == {};
  }

  predicate Starts(w: World, d: Desired, e: Event) {
    (e.TickPlan? && w.holder.Deciding?) || (e.DispatchPut? && w.holder.Dispatching?)
  }

  lemma ReportCounts(w: World, d: Desired, op: Id)
    requires WorkersRun(w)
    ensures var v := Advance(w, d, Report(op)); WorkersRun(v) && Fewer(w.records, v.records)
  {
    SameCounts(w.records);
    if op in w.records && Terminal(w.records[op].status) { PutTerminal(w.records, op, w.records[op].(uploaded := true)); }
    hide RunningIds, RunningOf, Fewer;
  }

  lemma CancelCounts(w: World, d: Desired, job: Job, now: Time, later: Time, cancelled: bool)
    requires WorkersRun(w)
    ensures var v := Dispatch(w, d, job, now, later, cancelled); WorkersRun(v) && Fewer(w.records, v.records)
  {
    SameCounts(w.records);
    var v := Dispatch(w, d, job, now, later, cancelled);
    if v.records != w.records { PutTerminal(w.records, job.op, v.records[job.op]); }
    hide RunningIds, RunningOf, Fewer;
  }

  /** No step but the two that start a run adds to any count. */
  lemma OthersCount(w: World, d: Desired, e: Event)
    requires WorkersRun(w) && Possible(w, e) && !Starts(w, d, e)
    ensures WorkersRun(Advance(w, d, e)) && Fewer(w.records, Advance(w, d, e).records)
  {
    hide RunningIds, RunningOf, Fewer, Finished, Woken, Dispatch, RunningPlans, ConcurrencySkip;
    SameCounts(w.records);
    match e {
      case Finish(op, x, fault) => if op in w.workers && !fault && !w.workers[op].waiting { FinishCounts(w, op, x); }
      case Wake(op, cancelled, superseded, fault) => if op in w.workers && w.workers[op].waiting { WakeCounts(w, op, cancelled, superseded, fault); }
      case Report(op) => ReportCounts(w, d, op);
      case DispatchCheck(job, now, later, cancelled) => CancelCounts(w, d, job, now, later, cancelled);
      case Restart => RestartCounts(w.records);
      case _ =>
    }
  }

  lemma SameCounts(rs: Records)
    ensures Fewer(rs, rs)
  {
  }

  // ----- starting a run -----

  lemma StartCounts(rs: Records, r: Record, p: Id)
    requires r.id !in rs && r.status == Running
    ensures |RunningIds(rs[r.id := r])| == |RunningIds(rs)| + 1
    ensures RunningOf(rs[r.id := r], p) == if r.plan == p then RunningOf(rs, p) + {r.id} else RunningOf(rs, p)
  {
    RunningAfterPut(rs, r.id, r);
    RunningOfAfterPut(rs, r.id, r, p);
    assert r.id !in RunningIds(rs) && r.id !in RunningOf(rs, p);
  }

  /** What a decision stores: a new record of its plan, running only if the policy did not skip it. */
  lemma Decided(w: World, key: (Id, Time) -> Id, plan: Plan, now: Time, seen: set<Id>, c: Choice)
    ensures var x := Decide(w, key, plan, now, seen, c);
            x.Put? ==> && x.record.id !in w.records && x.record.plan == plan.id
                       && x.record.id == key(plan.id, x.record.scheduled)
                       && (x.record.status == Running ==> !ConcurrencySkip(plan.policy, plan.id in seen))
                       && (x.record.status != Running ==> Terminal(x.record.status))
                       && x.record.retryAt.None? && x.record.deadline.None?
  {
    hide ConcurrencySkip;
  }

  /** The record that a starting step adds, if any. */
  function Started(w: World, d: Desired, e: Event): Option<Record> {
    if e.TickPlan? && w.holder.Deciding? && w.holder.next < |d.plans| && !e.choice.fault then
      var x := Decide(w, d.key, d.plans[w.holder.next], w.holder.now, w.holder.seen, e.choice);
      if x.Put? then Some(x.record) else None
    else if e.DispatchPut? && w.holder.Dispatching? && JobPlan(d, w.holder.job).Some? && !e.fault then
      Some(JobRecord(JobPlan(d, w.holder.job).value, w.holder.job))
    else None
  }

  lemma StartedRecord(w: World, d: Desired, e: Event)
    requires Inv(w, d) && Starts(w, d, e)
    ensures var v := Advance(w, d, e); var r := Started(w, d, e);
            && v.records == (if r.Some? then w.records[r.value.id := r.value] else w.records)
            && v.workers.Keys <= w.workers.Keys + (if r.Some? && r.value.status == Running then {r.value.id} else {})
            && (r.Some? ==> r.value.id !in w.records && (r.value.status == Running ==> HasCapacity(w, d)))
  {
    hide RunningIds, RunningOf, ConcurrencySkip;
    if e.TickPlan? && w.holder.next < |d.plans| {
      Decided(w, d.key, d.plans[w.holder.next], w.holder.now, w.holder.seen, e.choice);
      hide Decide;
    }
  }

  lemma StartedWorkers(w: World, d: Desired, e: Event)
    requires WorkersRun(w) && Starts(w, d, e)
    ensures WorkersRun(Advance(w, d, e))
  {
    hide RunningIds, RunningOf, ConcurrencySkip;
    if e.TickPlan? && w.holder.next < |d.plans| {
      Decided(w, d.key, d.plans[w.holder.next], w.holder.now, w.holder.seen, e.choice);
      hide Decide;
    }
  }

  lemma StartHolder(w: World, d: Desired, e: Event)
    requires Inv(w, d) && Starts(w, d, e)
    ensures HolderFits(Advance(w, d, e), d)
  {
    hide RunningIds, RunningOf, ConcurrencySkip, Decide;
  }

  lemma StartBound(w: World, d: Desired, e: Event)
    requires Inv(w, d) && Starts(w, d, e)
    ensures |RunningIds(Advance(w, d, e).records)| <= d.maxJobs
  {
    StartedRecord(w, d, e);
    hide Advance, Started, RunningIds, RunningOf, HolderFits;
    var r := Started(w, d, e);
    if r.Some? {
      if r.value.status == Running { StartCounts(w.records, r.value, 0); } else { PutTerminal(w.records, r.value.id, r.value); }
    }
  }

  lemma SaneStep(w: World, d: Desired, e: Event)
    requires Sane(w) && Possible(w, e)
    ensures Sane(Advance(w, d, e))
  {
    if Starts(w, d, e) { StartedWorkers(w, d, e); } else { OthersCount(w, d, e); }
    JobStaysNew(w, d, e);
    hide Advance, WorkersRun;
  }

  lemma JobStaysNew(w: World, d: Desired, e: Event)
    requires Sane(w) && Possible(w, e)
    ensures var v := Advance(w, d, e); v.holder.Dispatching? ==> v.holder.job.op !in v.records
  {
    hide RunningIds, RunningOf, RunningPlans, ConcurrencySkip, Decide, BackoffOf, WorkersRun;
  }

  // ----- capacity, for every configuration -----

  lemma OtherHolder(w: World, d: Desired, e: Event)
    requires Inv(w, d) && Possible(w, e) && !Starts(w, d, e) && Fewer(w.records, Advance(w, d, e).records)
    ensures HolderFits(Advance(w, d, e), d)
  {
    hide RunningIds, RunningOf, ConcurrencySkip;
  }

  lemma StepInv(w: World, d: Desired, e: Event)
    requires Inv(w, d) && Possible(w, e)
    ensures Inv(Advance(w, d, e), d)
  {
    if Starts(w, d, e) {
      StartedWorkers(w, d, e);
      StartBound(w, d, e);
      StartHolder(w, d, e);
      hide Advance, HolderFits, RunningIds, RunningOf;
    } else {
      OthersCount(w, d, e);
      OtherHolder(w, d, e);
      hide Advance, HolderFits, RunningIds, RunningOf;
    }
  }

  lemma {:induction false} RunInv(w: World, d: Desired, es: seq<Event>)
    requires Start(w) && PossibleRun(w, d, es)
    ensures Inv(Run(w, d, es), d)
  {
    if es != [] {
      RunInv(w, d, es[..|es| - 1]);
      StepInv(Run(w, d, es[..|es| - 1]), d, es[|es| - 1]);
    }
  }

  // ----- one run of a plan -----

  /** The runs of the plan after a start: one more only if it was the plan's and none was seen. */
  lemma StartedOf(w: World, d: Desired, e: Event, p: Id)
    requires Inv(w, d) && Exclusive(d, p) && Single(w, d, p) && Starts(w, d, e)
    ensures var v, r := Advance(w, d, e), Started(w, d, e);
            if r.Some? && r.value.status == Running && r.value.plan == p then |RunningOf(v.records, p)| == 1 && RunningOf(w.records, p) == {}
            else |RunningOf(v.records, p)| <= |RunningOf(w.records, p)|
  {
    StartedRecord(w, d, e);
    StartedOnce(w, d, e, p);
    hide Advance, Started, RunningIds, RunningOf, HolderFits, Single, Exclusive;
    var r := Started(w, d, e);
    if r.Some? {
      if r.value.status == Running { StartCounts(w.records, r.value, p); } else { PutTerminal(w.records, r.value.id, r.value); }
    }
  }

  lemma StartedOnce(w: World, d: Desired, e: Event, p: Id)
    requires Exclusive(d, p) && Single(w, d, p) && Starts(w, d, e)
    ensures var r := Started(w, d, e); r.Some? && r.value.status == Running && r.value.plan == p ==> RunningOf(w.records, p) == {}
  {
    hide RunningOf, EqualFold;
    if e.TickPlan? && w.holder.next < |d.plans| {
      Decided(w, d.key, d.plans[w.holder.next], w.holder.now, w.holder.seen, e.choice);
      assert d.plans[w.holder.next].id == p ==> Forbids(d.plans[w.holder.next]);
    }
    hide Decide;
  }

  lemma StartSingle(w: World, d: Desired, e: Event, p: Id)
    requires Inv(w, d) && Exclusive(d, p) && Single(w, d, p) && Starts(w, d, e)
    ensures Single(Advance(w, d, e), d, p)
  {
    StartedOf(w, d, e, p);
    SeenAfter(w, d, e);
    hide Advance, Started, RunningIds, RunningOf, HolderFits, Exclusive, WorkersRun;
  }

  /** After a start the mutex is free, or the tick goes on and has seen what it started. */
  lemma SeenAfter(w: World, d: Desired, e: Event)
    requires Starts(w, d, e)
    ensures var v, r := Advance(w, d, e), Started(w, d, e);
            || v == w || v.holder == Free
            || (w.holder.Deciding? && v.holder.Scanning? && w.holder.seen <= v.holder.seen
                && (r.Some? && r.value.status == Running ==> r.value.plan in v.holder.seen))
  {
    if e.TickPlan? && w.holder.next < |d.plans| {
      Decided(w, d.key, d.plans[w.holder.next], w.holder.now, w.holder.seen, e.choice);
    }
    hide Decide;
  }

  /** At its start a tick sees every running plan. */
  lemma TickSees(rs: Records, p: Id)
    requires p !in RunningPlans(rs)
    ensures RunningOf(rs, p) == {}
  {
    forall id ensures id !in RunningOf(rs, p) {
      if id in rs && rs[id].status == Running { assert rs[id].plan in RunningPlans(rs); }
    }
  }

  lemma OtherSingle(w: World, d: Desired, e: Event, p: Id)
    requires Inv(w, d) && Exclusive(d, p) && Single(w, d, p) && Possible(w, e) && !Starts(w, d, e)
    ensures Single(Advance(w, d, e), d, p)
  {
    OthersCount(w, d, e);
    OtherHolds(w, d, e, p);
    var v := Advance(w, d, e);
    assert |RunningOf(v.records, p)| <= |RunningOf(w.records, p)|;
    hide Advance, RunningIds, RunningOf, RunningPlans, Exclusive, HolderFits, WorkersRun, JobPlan, Believes;
    hide Single;
    SingleMeans(w, d, p);
    SingleMeans(v, d, p);
  }

  /** What the holder of the mutex believes about the plan. */
  predicate Believes(w: World, d: Desired, p: Id) {
    match w.holder
    case Free => false
    case Scanning(seen, _, _) => p !in seen
    case Deciding(seen, _, _) => p !in seen
    case Dispatching(job) => JobPlan(d, job).Some? && job.plan == p
  }

  lemma SingleMeans(w: World, d: Desired, p: Id)
    ensures Single(w, d, p) <==> |RunningOf(w.records, p)| <= 1 && (Believes(w, d, p) ==> RunningOf(w.records, p) == {})
  {
    hide RunningOf, JobPlan;
  }

  /** A step that starts nothing comes to believe it only of a plan of which nothing runs. */
  lemma OtherHolds(w: World, d: Desired, e: Event, p: Id)
    requires Exclusive(d, p) && !Starts(w, d, e)
    ensures Believes(Advance(w, d, e), d, p) ==> Believes(w, d, p) || (RunningOf(w.records, p) == {} && Advance(w, d, e).records == w.records)
  {
    hide RunningIds, RunningOf, RunningPlans, ConcurrencySkip, EqualFold, JobPlan, NextAttempt;
    if e.TickStart? && p !in RunningPlans(w.records) { TickSees(w.records, p); }
    if e.DispatchCheck? && JobPlan(d, e.job).Some? && e.job.plan == p { PlanForbids(d, e.job); }
  }

  lemma PlanForbids(d: Desired, job: Job)
    requires JobPlan(d, job).Some? && Exclusive(d, job.plan)
    ensures JobPlan(d, job).value.policy != "ALLOW" && JobPlan(d, job).value.id == job.plan
  {
    hide FirstNamed;
    NotAllow(JobPlan(d, job).value);
  }

  lemma NotAllow(p: Plan)
    ensures Forbids(p) ==> p.policy != "ALLOW"
  {
  }

  lemma {:induction false} RunSingle(w: World, d: Desired, es: seq<Event>, p: Id)
    requires Start(w) && PossibleRun(w, d, es) && Exclusive(d, p)
    ensures Single(Run(w, d, es), d, p)
  {
    if es == [] {
      assert RunningOf(w.records, p) <= RunningIds(w.records);
    } else {
      var v, e := Run(w, d, es[..|es| - 1]), es[|es| - 1];
      RunSingle(w, d, es[..|es| - 1], p);
      RunInv(w, d, es[..|es| - 1]);
      hide Single, Inv, Exclusive;
      if Starts(v, d, e) { StartSingle(v, d, e, p); } else { OtherSingle(v, d, e, p); }
    }
  }

  /** RUNNING records never exceed the job limit; a plan all of whose entries forbid overlap never has two. */
  lemma {:induction false} AdmissionBound(w: World, d: Desired, es: seq<Event>, p: Id)
    requires Start(w) && PossibleRun(w, d, es)
    ensures |RunningIds(Run(w, d, es).records)| <= d.maxJobs
    ensures Exclusive(d, p) ==> |RunningOf(Run(w, d, es).records, p)| <= 1
  {
    RunInv(w, d, es);
    if Exclusive(d, p) { RunSingle(w, d, es, p); }
  }

  // ----- when one run per plan holds -----

  ghost predicate Reachable(d: Desired, v: World) {
    exists es :: PossibleRun(Empty(), d, es) && Run(Empty(), d, es) == v
  }

  function Empty(): World {
    World(map[], map[], map[], Free)
  }

  lemma Reach(d: Desired, v: World, e: Event)
    requires Reachable(d, v) && Possible(v, e)
    ensures Reachable(d, Advance(v, d, e))
  {
    hide Advance, Possible;
    var es :| PossibleRun(Empty(), d, es) && Run(Empty(), d, es) == v;
    var more := es + [e];
    assert more[..|more| - 1] == es && more[|more| - 1] == e;
    assert PossibleRun(Empty(), d, more) && Run(Empty(), d, more) == Advance(v, d, e);
  }

  /** A tick passes over plans whose schedule or write fails, and so reaches any plan of the list. */
  lemma {:induction false} PassOver(d: Desired, v: World, seen: set<Id>, j: nat, now: Time)
    requires Reachable(d, v.(holder := Scanning(seen, 0, now))) && j <= |d.plans|
    ensures Reachable(d, v.(holder := Scanning(seen, j, now)))
  {
    hide Reachable;
    if j > 0 {
      PassOver(d, v, seen, j - 1, now);
      var a := v.(holder := Scanning(seen, j - 1, now));
      Reach(d, a, TickCheck);
      var b := Advance(a, d, TickCheck);
      if b.holder.Deciding? {
        Reach(d, b, TickPlan(Choice(false, None, false, true)));
        assert Advance(b, d, TickPlan(Choice(false, None, false, true))) == v.(holder := Scanning(seen, j, now));
      }
    }
  }

  /** One tick that handles plan j alone. */
  function TickAt(v: World, d: Desired, j: nat, now: Time, c: Choice): World
    requires j < |d.plans|
  {
    Enact(v, d.plans[j], now, Decide(v.(holder := Deciding(RunningPlans(v.records), j, now)), d.key, d.plans[j], now, RunningPlans(v.records), c))
  }

  lemma ReachTick(d: Desired, v: World, j: nat, now: Time, c: Choice)
    requires Reachable(d, v) && v.holder == Free && j < |d.plans| && HasCapacity(v, d) && !c.fault
    ensures Reachable(d, TickAt(v, d, j, now, c))
  {
    hide Reachable, RunningPlans, RunningIds;
    var seen := RunningPlans(v.records);
    Reach(d, v, TickStart(now));
    PassOver(d, v, seen, j, now);
    var a := v.(holder := Scanning(seen, j, now));
    Reach(d, a, TickCheck);
    var b := v.(holder := Deciding(seen, j, now));
    assert Advance(a, d, TickCheck) == b;
    Reach(d, b, TickPlan(c));
    var e := Advance(b, d, TickPlan(c));
    Reach(d, e, TickEnd);
    hide Decide;
    assert Advance(e, d, TickEnd) == TickAt(v, d, j, now, c);
  }

  /** A manual job starts whenever there is room and nothing of its plan runs, whatever the policy. */
  lemma ReachDispatch(d: Desired, v: World, job: Job)
    requires Reachable(d, v) && v.holder == Free && JobPlan(d, job).Some? && job.op !in v.records
    requires HasCapacity(v, d) && RunningOf(v.records, job.plan) == {} && job.notBefore < job.deadline
    ensures Reachable(d, v.(records := v.records[job.op := JobRecord(JobPlan(d, job).value, job)],
                            workers := v.workers[job.op := Worker(JobPlan(d, job).value, job.deadline, false)]))
  {
    hide Reachable, RunningIds, RunningOf;
    Reach(d, v, DispatchCheck(job, job.notBefore, job.notBefore, false));
    var a := v.(holder := Dispatching(job));
    assert Advance(v, d, DispatchCheck(job, job.notBefore, job.notBefore, false)) == a;
    Reach(d, a, DispatchPut(false));
  }

  /** What is left after one tick has remembered the plan's first run. */
  function Remembered(p: Plan): World {
    World(map[], map[p.id := Runtime(p.id, p.revision, p.hash, Some(1), None, None)], map[], Free)
  }

  /** The entry that dispatch takes for plan j. */
  function FirstEntry(d: Desired, j: nat): (q: Plan)
    requires j < |d.plans|
    ensures q.id == d.plans[j].id && FirstNamed(d.plans, q.id) == Some(q)
  {
    FirstNamed(d.plans, d.plans[j].id).value
  }

  /** One manual job of plan j, under an identifier that is not the slot's. */
  function ManualJob(d: Desired, j: nat): Job
    requires j < |d.plans|
  {
    var q := FirstEntry(d, j);
    Job(d.key(d.plans[j].id, 1) + 1, q.id, q.revision, q.hash, 0, 1, None, None, 0)
  }

  function WithJob(d: Desired, j: nat): World
    requires j < |d.plans|
  {
    var q, job := FirstEntry(d, j), ManualJob(d, j);
    Remembered(d.plans[j]).(records := map[job.op := JobRecord(q, job)], workers := map[job.op := Worker(q, job.deadline, false)])
  }

  lemma ReachJob(d: Desired, j: nat)
    requires j < |d.plans| && d.maxJobs > 0
    ensures Reachable(d, WithJob(d, j))
  {
    var p, q, job := d.plans[j], FirstEntry(d, j), ManualJob(d, j);
    var a := Remembered(p);
    FirstTick(d, j);
    assert RunningIds(a.records) == {} && RunningOf(a.records, p.id) == {};
    hide Reachable, RunningIds, RunningOf;
    ReachDispatch(d, a, job);
    assert a.records[job.op := JobRecord(q, job)] == WithJob(d, j).records;
    assert a.workers[job.op := Worker(q, job.deadline, false)] == WithJob(d, j).workers;
  }

  /** An entry that does not forbid overlap starts its slot beside a manual job of the same plan. */
  lemma TwoRuns(d: Desired, j: nat) returns (v: World)
    requires j < |d.plans| && !Forbids(d.plans[j]) && d.maxJobs > 1
    ensures Reachable(d, v) && |RunningOf(v.records, d.plans[j].id)| == 2
  {
    hide Reachable;
    var b, c := WithJob(d, j), Choice(true, Some(3), true, false);
    ReachJob(d, j);
    assert RunningIds(b.records) == {ManualJob(d, j).op};
    ReachTick(d, b, j, 2, c);
    SecondTick(b, d, j, c);
    v := TickAt(b, d, j, 2, c);
    hide TickAt;
    assert RunningOf(v.records, d.plans[j].id) == {ManualJob(d, j).op, d.key(d.plans[j].id, 1)};
  }

  lemma FirstTick(d: Desired, j: nat)
    requires j < |d.plans| && d.maxJobs > 0
    ensures Reachable(d, Remembered(d.plans[j]))
  {
    assert Reachable(d, Empty()) by { assert PossibleRun(Empty(), d, []) && Run(Empty(), d, []) == Empty(); }
    hide Reachable;
    assert RunningIds(Empty().records) == {};
    ReachTick(d, Empty(), j, 0, Choice(true, Some(1), true, false));
  }

  lemma SecondTick(b: World, d: Desired, j: nat, c: Choice)
    requires j < |d.plans| && !Forbids(d.plans[j]) && c == Choice(true, Some(3), true, false)
    requires b.runtimes == Remembered(d.plans[j]).runtimes && d.key(d.plans[j].id, 1) !in b.records
    ensures TickAt(b, d, j, 2, c).records == b.records[d.key(d.plans[j].id, 1) := NewRecord(d.plans[j], d.key(d.plans[j].id, 1), 1, Running, "")]
  {
    hide EqualFold, RunningPlans;
  }

  /**
    Whether a plan can ever have two RUNNING records is decided by the configuration
    alone: never exactly when the job limit is below two, or every entry under its
    identifier has the policy FORBID in some case.  An empty policy is valid and is not
    FORBID, although manual dispatch treats it as exclusive; and validation lets two
    entries share an identifier.
   */
  lemma {:induction false} OverlapIff(d: Desired, k: nat)
    requires k < |d.plans|
    ensures (forall v :: Reachable(d, v) ==> |RunningOf(v.records, d.plans[k].id)| <= 1) <==>
            d.maxJobs <= 1 || forall j :: 0 <= j < |d.plans| && d.plans[j].id == d.plans[k].id ==> Forbids(d.plans[j])
  {
    var p := d.plans[k].id;
    if d.maxJobs <= 1 || Exclusive(d, p) {
      forall v | Reachable(d, v) ensures |RunningOf(v.records, p)| <= 1 { AtMostOne(d, v, p); }
    } else {
      var j :| 0 <= j < |d.plans| && d.plans[j].id == p && !Forbids(d.plans[j]);
      var v := TwoRuns(d, j);
      assert Reachable(d, v) && |RunningOf(v.records, p)| == 2;
    }
  }

  lemma AtMostOne(d: Desired, v: World, p: Id)
    requires Reachable(d, v) && (d.maxJobs <= 1 || Exclusive(d, p))
    ensures |RunningOf(v.records, p)| <= 1
  {
    var es :| PossibleRun(Empty(), d, es) && Run(Empty(), d, es) == v;
    AdmissionBound(Empty(), d, es, p);
    Smaller(RunningOf(v.records, p), RunningIds(v.records));
  }
}
