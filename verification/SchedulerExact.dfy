/** What becomes of a due slot, of a failed attempt and of a dispatched job, after every run. */
module SchedulerExact {
  import opened Basics
  import opened Operations
  import Config = ConfigSpec
  import Sched = SchedulerSpec
  import Agents = AgentSlots
  import SchedulerRuns

  type Key = Agents.Key

  // ----- a due slot -----

  /** The tick is about to decide on this plan, whose stored next run is t. */
  predicate DecidesOn(a: Agents.Agent, p: Plan, t: Time) {
    && a.sched.holder.Deciding? && a.sched.holder.next < |Config.PlansOf(a.active)|
    && Config.PlansOf(a.active)[a.sched.holder.next] == p
    && Agents.NextOf(a.sched.runtimes, p.id) == Some(t)
  }

  /** More than the grace period has gone by since the slot; a negative one is none. */
  predicate TooLate(p: Plan, t: Time, now: Time) {
    now - t > if p.grace < 0 then 0 else p.grace * SECOND
  }

  /** A day after the slot, or after now if that day is over. */
  predicate DayFrom(t: Time, now: Time, deadline: Time) {
    now <= deadline && (deadline == t + 24 * HOUR || (t + 24 * HOUR < now && deadline == now + 24 * HOUR))
  }

  /** The agent after the tick decided on the plan. */
  function Decided(a: Agents.Agent, key: Key, c: Sched.Choice): Agents.Agent {
    Agents.Advance(a, key, Agents.Scheduled(Sched.TickPlan(c)))
  }

  lemma Matched(key: Key, es: seq<Agents.Event>, p: Plan, t: Time)
    requires Agents.PossibleRun(key, es) && DecidesOn(Agents.Run(key, es), p, t)
    ensures var rts := Agents.Run(key, es).sched.runtimes;
            p.id in rts && rts[p.id].plan == p.id && rts[p.id].revision == p.revision && rts[p.id].hash == p.hash && rts[p.id].nextRun == Some(t)
  {
    Agents.RunInv(key, es);
    hide Agents.Run, SchedulerRuns.Sane, Config.Consistent;
  }

  /** The record of the slot, and the worker of one that runs. */
  predicate Tells(r: Record, id: Id, p: Plan, t: Time, now: Time, ordinary: bool, seen: bool) {
    && r.id == id && r.plan == p.id && r.revision == p.revision && r.hash == p.hash && r.scheduled == t && !r.uploaded
    && r.parent == None && r.root == None && r.attempt == 0 && r.retryAt == None && r.deadline == None
    && (r.status == Missed <==> !ordinary && TooLate(p, t, now))
    && (r.status == Skipped <==> r.status != Missed && Sched.Forbids(p) && seen)
    && (r.status != Missed && r.status != Skipped ==> r.status == Running)
    && r.error == (if r.status == Missed then "MISFIRE_GRACE_EXCEEDED" else if r.status == Skipped then "CONCURRENCY_SKIPPED" else "")
  }

  lemma DecisionTells(w: Sched.World, key: Key, p: Plan, t: Time, now: Time, seen: set<Id>, c: Sched.Choice)
    requires p.id in w.runtimes && w.runtimes[p.id].revision == p.revision && w.runtimes[p.id].hash == p.hash && w.runtimes[p.id].nextRun == Some(t)
    ensures var x := Sched.Decide(w, key, p, now, seen, c); var id := key(p.id, t);
            if !c.valid || now < t then x == Sched.Nothing
            else
              && !x.Nothing? && x.runtime.nextRun == c.next && x.runtime.lastScheduled == Some(t)
              && (x.Put? <==> id !in w.records)
              && (x.Put? ==> Tells(x.record, id, p, t, now, c.ordinary, p.id in seen) && (x.record.status == Running ==> x.runtime.lastOperation == Some(id)))
  {
    hide EqualFold;
  }

  lemma Decides(key: Key, es: seq<Agents.Event>, p: Plan, t: Time, c: Sched.Choice)
    requires Agents.PossibleRun(key, es) && DecidesOn(Agents.Run(key, es), p, t)
    ensures var a := Agents.Run(key, es); var h := a.sched.holder; var id := key(p.id, t);
            var x := if c.fault then Sched.Nothing else Sched.Decide(a.sched, key, p, h.now, h.seen, c); var e := Sched.Enact(a.sched, p, h.now, x);
            && Decided(a, key, c).sched.records == e.records && Decided(a, key, c).sched.runtimes == e.runtimes && Decided(a, key, c).sched.workers == e.workers
            && if !c.valid || c.fault || h.now < t then x == Sched.Nothing
               else
                 && !x.Nothing? && x.runtime.nextRun == c.next && x.runtime.lastScheduled == Some(t)
                 && (x.Put? <==> id !in a.sched.records)
                 && (x.Put? ==> Tells(x.record, id, p, t, h.now, c.ordinary, p.id in h.seen) && (x.record.status == Running ==> x.runtime.lastOperation == Some(id)))
  {
    Matched(key, es, p, t);
    hide Agents.Run, Agents.PossibleRun;
    var a := Agents.Run(key, es);
    DecisionTells(a.sched, key, p, t, a.sched.holder.now, a.sched.holder.seen, c);
    hide Sched.Decide, Tells;
  }

  /** After every run, a tick that decides on a plan records its slot exactly if it is due, has no record and the store takes it. */
  lemma {:induction false} SlotRecordedIff(key: Key, es: seq<Agents.Event>, p: Plan, t: Time, c: Sched.Choice)
    requires Agents.PossibleRun(key, es) && DecidesOn(Agents.Run(key, es), p, t)
    ensures var a := Agents.Run(key, es).sched; var v := Decided(Agents.Run(key, es), key, c).sched; var due := c.valid && !c.fault && t <= a.holder.now;
            && (v.records != a.records <==> due && key(p.id, t) !in a.records)
            && (due ==> p.id in v.runtimes && v.runtimes[p.id].nextRun == c.next && v.runtimes[p.id].lastScheduled == Some(t))
            && (!due ==> v.runtimes == a.runtimes)
  {
    Decides(key, es, p, t, c);
    hide Agents.Run, Agents.PossibleRun, Decided, Sched.Decide, Sched.DeadlineOf;
  }

  /**
    After every run, the record of a slot that comes due says what happened to it: missed
    exactly if the agent did not wake up in the ordinary way and the grace period is over,
    else skipped exactly if the plan forbids overlap and the tick saw it running, else
    running, with a worker that has a day.
   */
  lemma {:induction false} SlotOutcome(key: Key, es: seq<Agents.Event>, p: Plan, t: Time, c: Sched.Choice)
    requires Agents.PossibleRun(key, es) && DecidesOn(Agents.Run(key, es), p, t) && c.valid && !c.fault
    requires var a := Agents.Run(key, es); t <= a.sched.holder.now && key(p.id, t) !in a.sched.records
    ensures var a := Agents.Run(key, es).sched; var v := Decided(Agents.Run(key, es), key, c).sched; var h := a.holder; var id := key(p.id, t);
            && id in v.records && v.records == a.records[id := v.records[id]]
            && Tells(v.records[id], id, p, t, h.now, c.ordinary, p.id in h.seen)
            && if v.records[id].status != Running then v.workers == a.workers
               else
                 && id in v.workers && v.workers == a.workers[id := v.workers[id]]
                 && v.workers[id].plan == p && !v.workers[id].waiting && DayFrom(t, h.now, v.workers[id].deadline)
                 && p.id in v.runtimes && v.runtimes[p.id].lastOperation == Some(id)
  {
    Decides(key, es, p, t, c);
    hide Agents.Run, Agents.PossibleRun, Decided, Sched.Decide;
  }

  // ----- what a tick has seen -----

  predicate Ticks(a: Agents.Agent) {
    a.sched.holder.Scanning? || a.sched.holder.Deciding?
  }

  /** Event k began the tick that is still under way after the first n events. */
  predicate TickSince(key: Key, es: seq<Agents.Event>, k: nat, n: nat) {
    && k < n <= |es| && es[k].Scheduled? && es[k].step.TickStart? && Agents.Run(key, es[..k]).sched.holder == Sched.Free
    && forall m :: k < m <= n ==> Ticks(Agents.Run(key, es[..m]))
  }

  /** Event m is a tick's decision that started an operation of plan q. */
  predicate StartsPlan(key: Key, es: seq<Agents.Event>, m: nat, q: Id)
    requires m < |es|
  {
    && es[m].Scheduled? && es[m].step.TickPlan?
    && var before := Agents.Run(key, es[..m]).sched.records; var after := Agents.Run(key, es[..m + 1]).sched.records;
       exists id :: id in after && id !in before && after[id].status == Running && after[id].plan == q
  }

  lemma RunAt(key: Key, es: seq<Agents.Event>, n: nat)
    requires n < |es|
    ensures Agents.Run(key, es[..n + 1]) == Agents.Advance(Agents.Run(key, es[..n]), key, es[n])
  {
    assert es[..n + 1][..n] == es[..n];
  }

  /** What a step within a tick does to its view. */
  lemma SeenStep(a: Agents.Agent, key: Key, e: Agents.Event)
    requires Ticks(a) && Ticks(Agents.Advance(a, key, e))
    ensures var v := Agents.Advance(a, key, e); var h := v.sched.holder;
            && h.now == a.sched.holder.now
            && forall q :: q in h.seen <==>
                 || q in a.sched.holder.seen
                 || (e.Scheduled? && e.step.TickPlan? &&
                     exists id :: id in v.sched.records && id !in a.sched.records && v.sched.records[id].status == Running && v.sched.records[id].plan == q)
  {
    hide RunningIds, RunningOf, ConcurrencySkip, Sched.Misfired, Sched.DeadlineOf, Config.Apply;
    if e.Scheduled? && e.step.TickPlan? {
      DecisionSeen(a, key, e.step.choice);
    } else {
      hide Sched.Decide, Sched.Finished, Sched.Woken, Sched.Recovered;
    }
  }

  lemma DecisionSeen(a: Agents.Agent, key: Key, c: Sched.Choice)
    requires Ticks(a)
    ensures var v := Decided(a, key, c);
            && Ticks(v) && v.sched.holder.now == a.sched.holder.now
            && forall q :: q in v.sched.holder.seen <==>
                 || q in a.sched.holder.seen
                 || exists id :: id in v.sched.records && id !in a.sched.records && v.sched.records[id].status == Running && v.sched.records[id].plan == q
  {
    hide ConcurrencySkip, Sched.Misfired, Sched.DeadlineOf;
  }

  lemma TickBegins(a: Agents.Agent, key: Key, now: Time)
    requires a.sched.holder == Sched.Free
    ensures Agents.Advance(a, key, Agents.Scheduled(Sched.TickStart(now))).sched.holder == Sched.Scanning(Sched.RunningPlans(a.sched.records), 0, now)
  {
  }

  /** One more event of a tick. */
  lemma SeenNext(key: Key, es: seq<Agents.Event>, n: nat, q: Id)
    requires n < |es| && Ticks(Agents.Run(key, es[..n])) && Ticks(Agents.Run(key, es[..n + 1]))
    ensures var h, i := Agents.Run(key, es[..n]).sched.holder, Agents.Run(key, es[..n + 1]).sched.holder;
            i.now == h.now && (q in i.seen <==> q in h.seen || StartsPlan(key, es, n, q))
  {
    RunAt(key, es, n);
    hide Agents.Run, Agents.Advance;
    SeenStep(Agents.Run(key, es[..n]), key, es[n]);
  }

  ghost predicate Sees(key: Key, es: seq<Agents.Event>, k: nat, n: nat, q: Id)
    requires k < n <= |es|
  {
    || q in Sched.RunningPlans(Agents.Run(key, es[..k]).sched.records)
    || exists m :: k < m < n && StartsPlan(key, es, m, q)
  }

  /** A tick sees a plan as running exactly if it ran when the tick began or the tick itself started it. */
  lemma {:induction false} TickSees(key: Key, es: seq<Agents.Event>, k: nat, n: nat, q: Id)
    requires TickSince(key, es, k, n)
    ensures Ticks(Agents.Run(key, es[..n]))
    ensures var h := Agents.Run(key, es[..n]).sched.holder; h.now == es[k].step.now && (q in h.seen <==> Sees(key, es, k, n, q))
    decreases n
  {
    hide Agents.Run, Agents.Advance, Sched.RunningPlans, StartsPlan;
    if n - 1 > k {
      TickSees(key, es, k, n - 1, q);
      SeenNext(key, es, n - 1, q);
    } else {
      RunAt(key, es, k);
      TickBegins(Agents.Run(key, es[..k]), key, es[k].step.now);
    }
  }

  // ----- a failed attempt -----

  function Attempt(r: Record): int {
    if r.attempt == 0 then 1 else r.attempt
  }

  /** The retry must begin before the worker's deadline and before the plan's next run. */
  predicate InTime(at: Time, k: Sched.Worker, rts: map<Id, Runtime>) {
    at < k.deadline && (Agents.NextOf(rts, k.plan.id).Some? ==> at < Agents.NextOf(rts, k.plan.id).value)
  }

  /** The earlier of the two. */
  predicate Earlier(limit: Time, k: Sched.Worker, rts: map<Id, Runtime>) {
    var next := Agents.NextOf(rts, k.plan.id);
    && limit <= k.deadline && (next.Some? ==> limit <= next.value)
    && (limit == k.deadline || next == Some(limit))
  }

  /** Everything that a retry needs. */
  predicate MayRetry(r: Record, k: Sched.Worker, rts: map<Id, Runtime>, x: Sched.Result) {
    && x.status == Failed && RetryableError(x.error) && x.allowed && x.current
    && k.plan.retry.Some? && Attempt(r) < (if k.plan.retry.value.maxAttempts == 0 then 1 else k.plan.retry.value.maxAttempts)
    && InTime(RetryTime(r, k, x), k, rts)
  }

  function RetryTime(r: Record, k: Sched.Worker, x: Sched.Result): Time
    requires k.plan.retry.Some?
  {
    x.now + BackoffOf(k.plan.retry.value, Attempt(r)) * SECOND
  }

  /** The successor waits for the end of the backoff, and has until the earlier limit. */
  predicate Follows(n: Record, r: Record, k: Sched.Worker, rts: map<Id, Runtime>, x: Sched.Result)
    requires k.plan.retry.Some?
  {
    && n.status == Running && n.error == "" && n.parent == Some(r.id) && n.attempt == Attempt(r) + 1
    && n.scheduled == RetryTime(r, k, x) && n.retryAt == Some(RetryTime(r, k, x)) && n.deadline.Some? && Earlier(n.deadline.value, k, rts)
  }

  lemma NextIff(r: Record, k: Sched.Worker, rts: map<Id, Runtime>, x: Sched.Result)
    ensures var n := Sched.NextAttempt(rts, r.(status := x.status, error := x.error, uploaded := false), k.plan, k.deadline, x.allowed, x.current, x.now, x.id);
            (n.Some? <==> MayRetry(r, k, rts, x)) && (n.Some? ==> Follows(n.value, r, k, rts, x))
  {
    hide BackoffOf, RetryableError;
  }

  /**
    After every run, a worker that finishes leaves a successor exactly if it failed with a
    retryable error while the plan is current and may retry, attempts are left, and the
    backoff ends in time; and the successor waits until then.
   */
  lemma {:induction false} RetriedIff(w: Sched.World, d: Sched.Desired, es: seq<Sched.Event>, op: Id, x: Sched.Result)
    requires Sched.Start(w) && Sched.PossibleRun(w, d, es)
    requires var u := Sched.Run(w, d, es); Sched.Possible(u, Sched.Finish(op, x, false)) && op in u.workers && !u.workers[op].waiting
    ensures var u := Sched.Run(w, d, es); var v := Sched.Advance(u, d, Sched.Finish(op, x, false)); var k := u.workers[op];
            && op in u.records && op in v.records && v.records[op] == u.records[op].(status := x.status, error := x.error, uploaded := false)
            && op !in v.workers && (x.id in v.records <==> MayRetry(u.records[op], k, u.runtimes, x))
            && (x.id in v.records ==>
                  && Follows(v.records[x.id], u.records[op], k, u.runtimes, x)
                  && x.id in v.workers && v.workers[x.id] == Sched.Worker(k.plan, v.records[x.id].deadline.value, true))
  {
    var u := Sched.Run(w, d, es);
    SchedulerRuns.RunInv(w, d, es);
    hide Sched.Run, Sched.PossibleRun, RunningIds, RunningOf, SchedulerRuns.HolderFits;
    NextIff(u.records[op], u.workers[op], u.runtimes, x);
    hide Sched.NextAttempt, MayRetry, RetryTime, Attempt, Earlier;
  }

  /**
    After every run, a waiting worker that wakes up goes on exactly if it was neither
    cancelled nor superseded; otherwise it ends, and its record is CANCELED and says which
    of the two came first, unless that could not be stored.
   */
  lemma {:induction false} WokenIff(w: Sched.World, d: Sched.Desired, es: seq<Sched.Event>, op: Id, cancelled: bool, superseded: bool, fault: bool)
    requires Sched.Start(w) && Sched.PossibleRun(w, d, es) && op in Sched.Run(w, d, es).workers && Sched.Run(w, d, es).workers[op].waiting
    ensures var u := Sched.Run(w, d, es); var v := Sched.Advance(u, d, Sched.Wake(op, cancelled, superseded, fault));
            && op in u.records && op in v.records && v.runtimes == u.runtimes && v.holder == u.holder
            && (op in v.workers <==> !cancelled && !superseded)
            && (op in v.workers ==> v.records == u.records && v.workers == u.workers[op := u.workers[op].(waiting := false)])
            && (op !in v.workers ==> v.workers == u.workers - {op})
            && (op !in v.workers ==>
                  v.records == if fault then u.records
                               else u.records[op := u.records[op].(status := Canceled, error := if cancelled then "CANCELED" else "CONFIG_SUPERSEDED")])
  {
    SchedulerRuns.RunInv(w, d, es);
    hide Sched.Run, Sched.PossibleRun, RunningIds, RunningOf, SchedulerRuns.HolderFits;
  }

  /** After every run, a report marks a record as uploaded exactly if its result is final. */
  lemma {:induction false} ReportedIff(w: Sched.World, d: Sched.Desired, es: seq<Sched.Event>, op: Id)
    requires Sched.Start(w) && Sched.PossibleRun(w, d, es) && op in Sched.Run(w, d, es).records
    ensures var u := Sched.Run(w, d, es); var v := Sched.Advance(u, d, Sched.Report(op));
            v == u.(records := u.records[op := u.records[op].(uploaded := u.records[op].uploaded || u.records[op].status != Running)])
  {
    hide Sched.Run, Sched.PossibleRun;
    var u := Sched.Run(w, d, es);
    assert u.records[op := u.records[op]] == u.records;
  }

  // ----- a dispatched job -----

  predicate FirstAt(plans: seq<Plan>, id: Id, i: int) {
    0 <= i < |plans| && plans[i].id == id && forall j :: 0 <= j < i ==> plans[j].id != id
  }

  /** The first plan under the job's identifier is the one that the job was made for. */
  ghost predicate Made(d: Sched.Desired, job: Sched.Job, p: Plan) {
    p.revision == job.revision && p.hash == job.hash && exists i :: FirstAt(d.plans, job.plan, i) && d.plans[i] == p
  }

  lemma FirstOfRest(plans: seq<Plan>, id: Id, i: int)
    requires plans != [] && plans[0].id != id
    ensures FirstAt(plans, id, i + 1) <==> FirstAt(plans[1..], id, i)
  {
    assert forall j :: 0 <= j < |plans[1..]| ==> plans[1..][j] == plans[j + 1];
    if FirstAt(plans[1..], id, i) {
      forall j | 0 <= j < i + 1 ensures plans[j].id != id {
        if j > 0 { assert plans[1..][j - 1] == plans[j]; }
      }
    }
  }

  lemma {:induction false} FirstIff(plans: seq<Plan>, id: Id, p: Plan)
    ensures Sched.FirstNamed(plans, id) == Some(p) <==> exists i :: FirstAt(plans, id, i) && plans[i] == p
  {
    if plans == [] {
    } else if plans[0].id == id {
      assert FirstAt(plans, id, 0);
      assert forall i :: FirstAt(plans, id, i) ==> i == 0;
    } else {
      FirstIff(plans[1..], id, p);
      forall i ensures FirstAt(plans, id, i + 1) <==> FirstAt(plans[1..], id, i) { FirstOfRest(plans, id, i); }
      assert !FirstAt(plans, id, 0);
      hide FirstAt;
      if i :| FirstAt(plans, id, i) && plans[i] == p { assert FirstAt(plans, id, (i - 1) + 1); }
    }
  }

  lemma JobPlanIff(d: Sched.Desired, job: Sched.Job, p: Plan)
    ensures Sched.JobPlan(d, job) == Some(p) <==> Made(d, job, p)
  {
    FirstIff(d.plans, job.plan, p);
    hide Sched.FirstNamed;
  }

  /**
    After every run, a job that is checked and then stored runs exactly if it is new, was
    made for the active plan, comes between its two instants, is not cancelled, and finds
    a free place and, unless the plan allows overlap, nothing of its plan running; a
    cancelled one is recorded as such.
   */
  lemma {:induction false} DispatchedIff(
    w: Sched.World, d: Sched.Desired, es: seq<Sched.Event>, job: Sched.Job, now: Time, later: Time, cancelled: bool, p: Plan)
    requires Sched.Start(w) && Sched.PossibleRun(w, d, es) && Sched.Run(w, d, es).holder == Sched.Free && Made(d, job, p)
    ensures var u := Sched.Run(w, d, es);
            var v := Sched.Advance(Sched.Advance(u, d, Sched.DispatchCheck(job, now, later, cancelled)), d, Sched.DispatchPut(false));
            && v.holder == Sched.Free
            && (job.op !in u.workers && job.op in v.workers <==>
                  && job.op !in u.records && now < job.deadline && job.notBefore <= later && !cancelled && |RunningIds(u.records)| < d.maxJobs
                  && (p.policy == "ALLOW" || RunningOf(u.records, p.id) == {}))
            && (job.op !in u.records && job.op in v.records && v.records[job.op].status == Canceled <==>
                  job.op !in u.records && now < job.deadline && job.notBefore <= later && cancelled)
            && (job.op !in u.workers && job.op in v.workers ==>
                  var r := v.records[job.op];
                  && v.workers[job.op] == Sched.Worker(p, job.deadline, false) && r.status == Running && r.scheduled == job.notBefore
                  && r.plan == p.id && r.revision == p.revision && r.hash == p.hash
                  && r.parent == job.parent && r.root == job.root && r.attempt == job.attempt)
  {
    var u := Sched.Run(w, d, es);
    SchedulerRuns.RunInv(w, d, es);
    JobPlanIff(d, job, p);
    assert job.op in u.workers ==> job.op in u.records;
    hide Sched.Run, Sched.PossibleRun, Sched.JobPlan, Made, RunningIds, RunningOf, SchedulerRuns.Inv;
  }
}
