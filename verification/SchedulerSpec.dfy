/**
  Admission of backups on the agent: the scheduler's tick and manual dispatch share
  one mutex; workers finish, retry and wait beside them.  Each function is one
  transaction or one critical section.
 */
module SchedulerSpec {
  import opened Basics
  import opened Operations

  /** The active configuration; `key` is the deterministic operation identifier of a plan's slot. */
  datatype Desired = Desired(plans: seq<Plan>, maxJobs: nat, key: (Id, Time) -> Id)

  predicate Forbids(p: Plan) {
    EqualFold(p.policy, "FORBID")
  }

  /** A goroutine that owns one RUNNING record; it waits before each retry. */
  datatype Worker = Worker(plan: Plan, deadline: Time, waiting: bool)

  /** Who holds the scheduler mutex and how far it has come; `seen` is the tick's view of the running plans. */
  datatype Holder =
    | Free
    | Scanning(seen: set<Id>, next: nat, now: Time)
    | Deciding(seen: set<Id>, next: nat, now: Time)
    | Dispatching(job: Job)

  datatype Job = Job(op: Id, plan: Id, revision: int, hash: string, notBefore: Time, deadline: Time, parent: Option<Id>, root: Option<Id>, attempt: nat)

  datatype World = World(records: Records, runtimes: map<Id, Runtime>, workers: map<Id, Worker>, holder: Holder)

  // ----- one plan of a tick -----

  /** What the clock and the store answer: a parsed schedule, the next run, an ordinary wake-up, a failed write. */
  datatype Choice = Choice(valid: bool, next: Option<Time>, ordinary: bool, fault: bool)

  datatype Decision = Nothing | Remember(runtime: Runtime) | Put(record: Record, runtime: Runtime)

  predicate Misfired(now: Time, scheduled: Time, grace: int) {
    now > scheduled && now - scheduled > grace * SECOND
  }

  function PlanRuntime(rts: map<Id, Runtime>, plan: Plan): Runtime {
    if plan.id in rts then rts[plan.id] else Runtime(plan.id, 0, "", None, None, None)
  }

  function NewRecord(plan: Plan, id: Id, scheduled: Time, status: Status, error: string): Record {
    Record(id, plan.id, plan.revision, plan.hash, scheduled, status, error, None, None, 0, None, None, false)
  }

  function Decide(w: World, key: (Id, Time) -> Id, plan: Plan, now: Time, seen: set<Id>, c: Choice): Decision {
    if !c.valid then Nothing
    else
      var before := PlanRuntime(w.runtimes, plan);
      var rt := before.(plan := plan.id, revision := plan.revision, hash := plan.hash);
      var changed := before.revision != 0 && (before.revision != plan.revision || before.hash != plan.hash);
      if plan.id !in w.runtimes || rt.nextRun.None? || changed then
        Remember(if c.next.Some? then rt.(nextRun := c.next) else rt)
      else if now < rt.nextRun.value then Nothing
      else
        var scheduled := rt.nextRun.value;
        var id := key(plan.id, scheduled);
        var moved := rt.(nextRun := c.next, lastScheduled := Some(scheduled));
        if id in w.records then Remember(moved)
        else if !c.ordinary && Misfired(now, scheduled, plan.grace) then
          Put(NewRecord(plan, id, scheduled, Missed, "MISFIRE_GRACE_EXCEEDED"), moved)
        else if ConcurrencySkip(plan.policy, plan.id in seen) then
          Put(NewRecord(plan, id, scheduled, Skipped, "CONCURRENCY_SKIPPED"), moved)
        else Put(NewRecord(plan, id, scheduled, Running, ""), moved.(lastOperation := Some(id)))
  }

  function DeadlineOf(scheduled: Time, now: Time): Time {
    if scheduled + 24 * HOUR < now then now + 24 * HOUR else scheduled + 24 * HOUR
  }

  /** Record and runtime are stored together, before the worker starts. */
  function Enact(w: World, plan: Plan, now: Time, d: Decision): World {
    match d
    case Nothing => w
    case Remember(rt) => w.(runtimes := w.runtimes[plan.id := rt])
    case Put(r, rt) =>
      var v := w.(records := w.records[r.id := r], runtimes := w.runtimes[plan.id := rt]);
      if r.status == Running then v.(workers := w.workers[r.id := Worker(plan, DeadlineOf(r.scheduled, now), false)]) else v
  }

  // ----- finishing and retrying -----

  function AttemptOf(r: Record): int {
    if r.attempt == 0 then 1 else r.attempt
  }

  function RootOf(r: Record): Id {
    if r.root.Some? then r.root.value else r.id
  }

  function RetryDeadline(rts: map<Id, Runtime>, plan: Plan, deadline: Time): Time {
    if plan.id in rts && rts[plan.id].nextRun.Some? && rts[plan.id].nextRun.value < deadline
    then rts[plan.id].nextRun.value else deadline
  }

  predicate Retries(r: Record, plan: Plan, allowed: bool) {
    allowed && r.status == Failed && RetryableError(r.error) && plan.retry.Some? && AttemptOf(r) < Attempts(plan.retry.value)
  }

  /** The successor of a failed attempt, or None; `current` says that the plan is still the active one. */
  function NextAttempt(rts: map<Id, Runtime>, r: Record, plan: Plan, deadline: Time, allowed: bool, current: bool, now: Time, id: Id): Option<Record> {
    if !Retries(r, plan, allowed) || !current then None
    else
      var retryAt := now + BackoffOf(plan.retry.value, AttemptOf(r)) * SECOND;
      var limit := RetryDeadline(rts, plan, deadline);
      if retryAt >= limit then None
      else Some(Record(id, r.plan, r.revision, r.hash, retryAt, Running, "", Some(r.id), Some(RootOf(r)), AttemptOf(r) + 1,
                       Some(retryAt), Some(limit), false))
  }

  datatype Result = Result(status: Status, error: string, allowed: bool, current: bool, now: Time, id: Id)

  function Finished(w: World, op: Id, x: Result): World
    requires op in w.workers && op in w.records
  {
    var k := w.workers[op];
    var r := w.records[op].(status := x.status, error := x.error, uploaded := false);
    var done := w.(records := w.records[op := r], workers := w.workers - {op});
    var next := NextAttempt(w.runtimes, r, k.plan, k.deadline, x.allowed, x.current, x.now, x.id);
    if next.None? then done
    else done.(records := done.records[x.id := next.value],
               workers := done.workers[x.id := Worker(k.plan, next.value.deadline.value, true)])
  }

  // ----- the step system -----

  datatype Event =
    | TickStart(now: Time)
    | TickCheck
    | TickPlan(choice: Choice)
    | TickEnd
    | DispatchCheck(job: Job, now: Time, later: Time, cancelled: bool)
    | DispatchPut(fault: bool)
    | Finish(op: Id, result: Result, fault: bool)
    | Wake(op: Id, cancelled: bool, superseded: bool, fault: bool)
    | Report(op: Id)
    | Restart

  /** Results are terminal; identifiers drawn for retries are fresh. */
  predicate Possible(w: World, e: Event) {
    e.Finish? ==> && Terminal(e.result.status) && e.result.id !in w.records
                  && (w.holder.Dispatching? ==> e.result.id != w.holder.job.op)
  }

  function RunningPlans(rs: Records): set<Id> {
    set id | id in rs && rs[id].status == Running :: rs[id].plan
  }

  predicate HasCapacity(w: World, d: Desired) {
    |RunningIds(w.records)| < d.maxJobs
  }

  /** The first entry under the identifier. */
  function FirstNamed(plans: seq<Plan>, id: Id): (p: Option<Plan>)
    ensures p.Some? <==> exists i :: 0 <= i < |plans| && plans[i].id == id
    ensures p.Some? ==> exists i :: 0 <= i < |plans| && plans[i] == p.value && plans[i].id == id
  {
    if plans == [] then None
    else if plans[0].id == id then Some(plans[0])
    else
      assert forall i :: 0 <= i < |plans| && plans[i].id == id ==> i > 0 && plans[1..][i - 1] == plans[i];
      FirstNamed(plans[1..], id)
  }

  /** The plan of a job, if its revision and hash are the active ones. */
  function JobPlan(d: Desired, job: Job): (p: Option<Plan>)
    ensures p.Some? ==> p.value.id == job.plan && exists i :: 0 <= i < |d.plans| && d.plans[i] == p.value
  {
    var p := FirstNamed(d.plans, job.plan);
    if p.Some? && p.value.revision == job.revision && p.value.hash == job.hash then p else None
  }

  /** A job comes between its two instants; each is compared with a reading of its own. */
  predicate InWindow(job: Job, now: Time, later: Time) {
    now < job.deadline && job.notBefore <= later
  }

  function Dispatch(w: World, d: Desired, job: Job, now: Time, later: Time, cancelled: bool): World {
    if w.holder != Free || job.op in w.records || JobPlan(d, job).None? || !InWindow(job, now, later) then w
    else
      var plan := JobPlan(d, job).value;
      if cancelled then w.(records := w.records[job.op := NewRecord(plan, job.op, job.notBefore, Canceled, "CANCELED")])
      else if !HasCapacity(w, d) || (plan.policy != "ALLOW" && RunningOf(w.records, plan.id) != {}) then w
      else w.(holder := Dispatching(job))
  }

  function JobRecord(plan: Plan, job: Job): Record {
    Record(job.op, plan.id, plan.revision, plan.hash, job.notBefore, Running, "", job.parent, job.root, job.attempt, None, None, false)
  }

  function Recovered(rs: Records): Records {
    map id | id in rs :: if rs[id].status == Running then rs[id].(status := Lost, error := "LOCAL_OPERATION_RECOVERED", uploaded := false) else rs[id]
  }

  function Woken(w: World, op: Id, cancelled: bool, superseded: bool, fault: bool): World
    requires op in w.workers && op in w.records
  {
    if !cancelled && !superseded then w.(workers := w.workers[op := w.workers[op].(waiting := false)])
    else if fault then w.(workers := w.workers - {op})
    else w.(workers := w.workers - {op},
            records := w.records[op := w.records[op].(status := Canceled, error := if cancelled then "CANCELED" else "CONFIG_SUPERSEDED")])
  }

  function Advance(w: World, d: Desired, e: Event): World {
    match e
    case TickStart(now) => if w.holder == Free then w.(holder := Scanning(RunningPlans(w.records), 0, now)) else w
    case TickCheck =>
      if !w.holder.Scanning? || w.holder.next >= |d.plans| then w
      else
        var h := w.holder;
        var plan := d.plans[h.next];
        if !HasCapacity(w, d) && !ConcurrencySkip(plan.policy, plan.id in h.seen) then w.(holder := Scanning(h.seen, h.next + 1, h.now))
        else w.(holder := Deciding(h.seen, h.next, h.now))
    case TickPlan(c) =>
      if !w.holder.Deciding? || w.holder.next >= |d.plans| then w
      else
        var h := w.holder;
        var plan := d.plans[h.next];
        var x := if c.fault then Nothing else Decide(w, d.key, plan, h.now, h.seen, c);
        var started := x.Put? && x.record.status == Running;
        Enact(w, plan, h.now, x).(holder := Scanning(if started then h.seen + {plan.id} else h.seen, h.next + 1, h.now))
    case TickEnd => if w.holder.Scanning? then w.(holder := Free) else w
    case DispatchCheck(job, now, later, cancelled) => Dispatch(w, d, job, now, later, cancelled)
    case DispatchPut(fault) =>
      if !w.holder.Dispatching? || JobPlan(d, w.holder.job).None? then w
      else if fault then w.(holder := Free)
      else
        var job := w.holder.job;
        var plan := JobPlan(d, job).value;
        w.(records := w.records[job.op := JobRecord(plan, job)], workers := w.workers[job.op := Worker(plan, job.deadline, false)],
           holder := Free)
    case Finish(op, result, fault) =>
      if op !in w.workers || op !in w.records || w.workers[op].waiting then w
      else if fault then w.(workers := w.workers - {op})
      else Finished(w, op, result)
    case Wake(op, cancelled, superseded, fault) =>
      if op !in w.workers || op !in w.records || !w.workers[op].waiting then w else Woken(w, op, cancelled, superseded, fault)
    case Report(op) =>
      if op in w.records && Terminal(w.records[op].status) then w.(records := w.records[op := w.records[op].(uploaded := true)]) else w
    case Restart => World(Recovered(w.records), w.runtimes, map[], Free)
  }

  /** A recovered start: nothing runs. */
  predicate Start(w: World) {
    w.workers == map[] && w.holder == Free && RunningIds(w.records) == {} &&
    forall id :: id in w.records ==> w.records[id].id == id
  }

  function Run(w: World, d: Desired, es: seq<Event>): World {
    if es == [] then w else Advance(Run(w, d, es[..|es| - 1]), d, es[|es| - 1])
  }

  ghost predicate PossibleRun(w: World, d: Desired, es: seq<Event>) {
    es == [] || (PossibleRun(w, d, es[..|es| - 1]) && Possible(Run(w, d, es[..|es| - 1]), es[|es| - 1]))
  }
}
