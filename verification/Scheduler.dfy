/** The agent's state object: operation and runtime buckets, and the workers it has started. */
module Scheduler {
  import opened Basics
  import opened Operations
  import opened Spec = SchedulerSpec

  /** The rest of a tick from plan `i` on, with no worker in between. */
  function TickFrom(w: World, d: Desired, choices: seq<Choice>, i: nat): World
    requires |choices| == |d.plans|
    decreases |d.plans| - i
  {
    if i >= |d.plans| then w
    else TickFrom(Advance(Advance(w, d, TickCheck), d, TickPlan(choices[i])), d, choices, i + 1)
  }

  lemma DecideIgnoresHolder(w: World, h: Holder, key: (Id, Time) -> Id, plan: Plan, now: Time, seen: set<Id>, c: Choice)
    ensures Decide(w.(holder := h), key, plan, now, seen, c) == Decide(w, key, plan, now, seen, c)
  {
  }

  class AgentState {
    var operations: Records
    var runtimes: map<Id, Runtime>
    var workers: map<Id, Worker>

    function Abs(): World
      reads this
    {
      World(operations, runtimes, workers, Free)
    }

    constructor ()
      ensures Abs() == World(map[], map[], map[], Free)
    {
      operations, runtimes, workers := map[], map[], map[];
    }

    /** Scan the bucket for records that are still running. */
    method RunningOperations() returns (ids: set<Id>)
      ensures ids == RunningIds(operations)
    {
      var rest := operations.Keys;
      ids := {};
      while rest != {}
        invariant rest <= operations.Keys
        invariant ids == set id | id in operations && id !in rest && operations[id].status == Running
        decreases |rest|
      {
        var id :| id in rest;
        if operations[id].status == Running { ids := ids + {id}; }
        rest := rest - {id};
      }
    }

    method PlansOf(ids: set<Id>) returns (plans: set<Id>)
      requires ids <= operations.Keys
      ensures plans == set id | id in ids :: operations[id].plan
    {
      var rest := ids;
      plans := {};
      while rest != {}
        invariant rest <= ids
        invariant plans == set id | id in ids && id !in rest :: operations[id].plan
        decreases |rest|
      {
        var id :| id in rest;
        plans := plans + {operations[id].plan};
        rest := rest - {id};
      }
    }

    method AdvancePlan(key: (Id, Time) -> Id, plan: Plan, now: Time, seen: set<Id>, c: Choice) returns (started: bool)
      modifies this
      ensures var x := if c.fault then Nothing else Decide(old(Abs()), key, plan, now, seen, c);
              Abs() == Enact(old(Abs()), plan, now, x) && started == (x.Put? && x.record.status == Running)
    {
      started := false;
      if !c.valid || c.fault { return; }
      var found := plan.id in runtimes;
      var rt := if found then runtimes[plan.id] else Runtime(plan.id, 0, "", None, None, None);
      var changed := rt.revision != 0 && (rt.revision != plan.revision || rt.hash != plan.hash);
      rt := rt.(plan := plan.id, revision := plan.revision, hash := plan.hash);
      if !found || rt.nextRun.None? || changed {
        if c.next.Some? { rt := rt.(nextRun := c.next); }
        runtimes := runtimes[plan.id := rt];
        return;
      }
      if now < rt.nextRun.value { return; }
      var scheduled := rt.nextRun.value;
      rt := rt.(nextRun := c.next, lastScheduled := Some(scheduled));
      var id := key(plan.id, scheduled);
      if id in operations {
        runtimes := runtimes[plan.id := rt];
        return;
      }
      if !c.ordinary && Misfired(now, scheduled, plan.grace) {
        PutWithRuntime(NewRecord(plan, id, scheduled, Missed, "MISFIRE_GRACE_EXCEEDED"), plan.id, rt);
        return;
      }
      if ConcurrencySkip(plan.policy, plan.id in seen) {
        PutWithRuntime(NewRecord(plan, id, scheduled, Skipped, "CONCURRENCY_SKIPPED"), plan.id, rt);
        return;
      }
      var deadline := scheduled + 24 * HOUR;
      if deadline < now { deadline := now + 24 * HOUR; }
      PutWithRuntime(NewRecord(plan, id, scheduled, Running, ""), plan.id, rt.(lastOperation := Some(id)));
      workers := workers[id := Worker(plan, deadline, false)];
      started := true;
    }

    /** One transaction: the record and the plan's advanced runtime, or neither. */
    method PutWithRuntime(r: Record, plan: Id, rt: Runtime)
      modifies this`operations, this`runtimes
      ensures operations == old(operations)[r.id := r] && runtimes == old(runtimes)[plan := rt]
    {
      operations := operations[r.id := r];
      runtimes := runtimes[plan := rt];
    }

    /** One plan of a tick: the capacity is read again, then the plan is skipped or advanced. */
    method TickOne(d: Desired, i: nat, now: Time, seen: set<Id>, c: Choice) returns (after: set<Id>)
      requires i < |d.plans|
      modifies this
      ensures Abs().(holder := Scanning(after, i + 1, now)) ==
              Advance(Advance(old(Abs()).(holder := Scanning(seen, i, now)), d, TickCheck), d, TickPlan(c))
    {
      var current := RunningOperations();
      var plan := d.plans[i];
      after := seen;
      if |current| >= d.maxJobs && !ConcurrencySkip(plan.policy, plan.id in seen) { return; }
      DecideIgnoresHolder(Abs(), Deciding(seen, i, now), d.key, plan, now, seen, c);
      hide Decide, EqualFold;
      var started := AdvancePlan(d.key, plan, now, seen, c);
      if started { after := seen + {plan.id}; }
    }

    /** A whole tick: the running plans are listed once, before the first plan. */
    method TickScheduler(d: Desired, now: Time, choices: seq<Choice>)
      requires |choices| == |d.plans|
      modifies this
      ensures Abs() == Advance(TickFrom(Advance(old(Abs()), d, TickStart(now)), d, choices, 0), d, TickEnd)
    {
      var running := RunningOperations();
      var seen := PlansOf(running);
      assert seen == RunningPlans(operations);
      ghost var goal := TickFrom(Advance(Abs(), d, TickStart(now)), d, choices, 0);
      var i := 0;
      while i < |d.plans|
        invariant i <= |d.plans|
        invariant TickFrom(Abs().(holder := Scanning(seen, i, now)), d, choices, i) == goal
      {
        ghost var before := Abs().(holder := Scanning(seen, i, now));
        ghost var next := Advance(Advance(before, d, TickCheck), d, TickPlan(choices[i]));
        assert TickFrom(before, d, choices, i) == TickFrom(next, d, choices, i + 1);
        hide Advance, Decide;
        seen := TickOne(d, i, now, seen, choices[i]);
        i := i + 1;
      }
    }

    static method FindPlan(plans: seq<Plan>, id: Id) returns (p: Option<Plan>)
      ensures p == FirstNamed(plans, id)
    {
      var i := 0;
      while i < |plans|
        invariant i <= |plans| && FirstNamed(plans, id) == FirstNamed(plans[i..], id)
      {
        assert plans[i..][0] == plans[i] && plans[i..][1..] == plans[i + 1..];
        if plans[i].id == id { return Some(plans[i]); }
        i := i + 1;
      }
      return None;
    }

    method HandleJobDispatch(d: Desired, job: Job, now: Time, later: Time, cancelled: bool, fault: bool) returns (accepted: bool)
      modifies this
      ensures var checked := Dispatch(old(Abs()), d, job, now, later, cancelled);
              Abs() == Advance(checked, d, DispatchPut(fault)).(holder := Free) && accepted == (checked.holder.Dispatching? && !fault)
    {
      accepted := false;
      if job.op in operations { return; }
      var found := FindPlan(d.plans, job.plan);
      if found.None? || found.value.revision != job.revision || found.value.hash != job.hash { return; }
      if job.deadline <= now || job.notBefore > later { return; }
      var plan := found.value;
      if cancelled {
        operations := operations[job.op := NewRecord(plan, job.op, job.notBefore, Canceled, "CANCELED")];
        return;
      }
      var running := RunningOperations();
      if |running| >= d.maxJobs { return; }
      var plans := PlansOf(running);
      assert plan.id in plans <==> RunningOf(operations, plan.id) != {} by {
        if plan.id in plans {
          var id :| id in running && operations[id].plan == plan.id;
          assert id in RunningOf(operations, plan.id);
        }
        if RunningOf(operations, plan.id) != {} {
          var id :| id in RunningOf(operations, plan.id);
          assert id in running;
        }
      }
      if plan.id in plans && plan.policy != "ALLOW" { return; }
      if fault { return; }
      operations := operations[job.op := JobRecord(plan, job)];
      workers := workers[job.op := Worker(plan, job.deadline, false)];
      accepted := true;
    }

    /** The failed attempt and its successor are committed together. */
    method FinishWithRetry(op: Id, x: Result) returns (next: Option<Record>)
      requires op in workers && op in operations
      requires workers[op].plan.retry.Some? ==> ValidRetry(workers[op].plan.retry.value)
      modifies this
      ensures Abs() == Finished(old(Abs()), op, x)
      ensures next == NextAttempt(old(runtimes), old(operations)[op].(status := x.status, error := x.error, uploaded := false),
                                  old(workers)[op].plan, old(workers)[op].deadline, x.allowed, x.current, x.now, x.id)
    {
      var k := workers[op];
      var r := operations[op].(status := x.status, error := x.error, uploaded := false);
      next := None;
      operations := operations[op := r];
      workers := workers - {op};
      if !x.allowed || r.status != Failed || !RetryableError(r.error) || k.plan.retry.None? { return; }
      var attempt := if r.attempt == 0 then 1 else r.attempt;
      var policy := k.plan.retry.value;
      if attempt >= Attempts(policy) { return; }
      var delay := Backoff(policy, attempt);
      var retryAt := x.now + delay * SECOND;
      if !x.current { return; }
      var deadline := k.deadline;
      if k.plan.id in runtimes && runtimes[k.plan.id].nextRun.Some? && runtimes[k.plan.id].nextRun.value < deadline {
        deadline := runtimes[k.plan.id].nextRun.value;
      }
      if retryAt >= deadline { return; }
      var root := if r.root.Some? then r.root.value else r.id;
      var n := Record(x.id, r.plan, r.revision, r.hash, retryAt, Running, "", Some(r.id), Some(root), attempt + 1,
                      Some(retryAt), Some(deadline), false);
      operations := operations[x.id := n];
      workers := workers[x.id := Worker(k.plan, deadline, true)];
      next := Some(n);
    }

    /** Close every record that a previous process left running. */
    method RecoverRunningOperations() returns (recovered: nat)
      modifies this
      ensures operations == Recovered(old(operations)) && runtimes == old(runtimes) && workers == map[]
      ensures recovered == |RunningIds(old(operations))|
    {
      var running := RunningOperations();
      recovered := |running|;
      workers := map[];
      var rest := running;
      while rest != {}
        invariant rest <= running && running == RunningIds(old(operations))
        invariant operations.Keys == old(operations).Keys && runtimes == old(runtimes) && workers == map[]
        invariant forall id :: id in operations ==>
                    operations[id] == (if id in running && id !in rest then Recovered(old(operations)) else old(operations))[id]
        decreases |rest|
      {
        var id :| id in rest;
        operations := operations[id := operations[id].(status := Lost, error := "LOCAL_OPERATION_RECOVERED", uploaded := false)];
        rest := rest - {id};
      }
    }
  }
}
