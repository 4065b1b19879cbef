/** Desired-state snapshots: validation, staging, and activation together with the plan runtimes. */
module ConfigSpec {
  import opened Basics
  import opened Operations
  import Sched = SchedulerSpec

  datatype DesiredState = DesiredState(revision: int, hash: string, plans: seq<Plan>, maxJobs: nat)

  datatype ConfigResult = Accepted(revision: int, hash: string) | Rejected(revision: int, code: string)

  /** A snapshot as it was decoded: a valid state, or the revision and code of what is wrong with it. */
  datatype Snapshot = Valid(state: DesiredState) | Invalid(revision: int, code: string)

  datatype Store = Store(active: Option<DesiredState>, staging: Option<DesiredState>, runtimes: map<Id, Runtime>, result: Option<ConfigResult>)

  /** The next run of each plan after the activation instant; None if its schedule does not parse. */
  type Clock = Plan -> Option<Option<Time>>

  predicate DistinctPlans(plans: seq<Plan>) {
    forall i, j :: 0 <= i < j < |plans| ==> plans[i].id != plans[j].id
  }

  /** Plans under one identifier are one plan. */
  predicate Consistent(plans: seq<Plan>) {
    forall i, j :: 0 <= i < j < |plans| && plans[i].id == plans[j].id ==>
      plans[i].revision == plans[j].revision && plans[i].hash == plans[j].hash
  }

  /** The plan that the previous state had under this identifier; the last one wins. */
  function PlanNamed(plans: seq<Plan>, id: Id): Option<Plan> {
    if plans == [] then None
    else if plans[|plans| - 1].id == id then Some(plans[|plans| - 1])
    else PlanNamed(plans[..|plans| - 1], id)
  }

  predicate SameSchedule(was: Option<Plan>, p: Plan) {
    was.Some? && was.value.revision == p.revision && was.value.hash == p.hash && was.value.clock == p.clock
  }

  function RuntimeFor(rts: map<Id, Runtime>, was: Option<Plan>, p: Plan, next: Option<Time>): Runtime {
    var rt := Sched.PlanRuntime(rts, p);
    (if SameSchedule(was, p) then rt else rt.(nextRun := next)).(plan := p.id, revision := p.revision, hash := p.hash)
  }

  /** The runtimes after the first n plans were reconciled; None if a schedule did not parse. */
  function Put(rts: map<Id, Runtime>, previous: seq<Plan>, plans: seq<Plan>, n: nat, clock: Clock): Option<map<Id, Runtime>>
    requires n <= |plans|
  {
    if n == 0 then Some(rts)
    else
      var before := Put(rts, previous, plans, n - 1, clock);
      var p := plans[n - 1];
      if before.None? then None
      else if !SameSchedule(PlanNamed(previous, p.id), p) && clock(p).None? then None
      else
        var next := if clock(p).Some? then clock(p).value else None;
        Some(before.value[p.id := RuntimeFor(before.value, PlanNamed(previous, p.id), p, next)])
  }

  function PlanIds(plans: seq<Plan>): set<Id> {
    set i | 0 <= i < |plans| :: plans[i].id
  }

  function Keep(rts: map<Id, Runtime>, ids: set<Id>): map<Id, Runtime> {
    map id | id in rts && id in ids :: rts[id]
  }

  function Reconciled(rts: map<Id, Runtime>, previous: seq<Plan>, plans: seq<Plan>, clock: Clock): Option<map<Id, Runtime>> {
    var all := Put(rts, previous, plans, |plans|, clock);
    if all.None? then None else Some(Keep(all.value, PlanIds(plans)))
  }

  function PlansOf(s: Option<DesiredState>): seq<Plan> {
    if s.Some? then s.value.plans else []
  }

  datatype Verdict = Refuse(code: string) | Confirm | Activate

  function Judge(active: Option<DesiredState>, next: DesiredState): Verdict {
    if active.Some? && next.revision < active.value.revision then Refuse("REVISION_ROLLBACK")
    else if active.Some? && next.revision == active.value.revision then
      if next.hash != active.value.hash then Refuse("REVISION_CONFLICT") else Confirm
    else Activate
  }

  /** `done` transactions of the call committed before it returned or the process died. */
  function Apply(s: Store, x: Snapshot, clock: Clock, done: nat): Store {
    match x
    case Invalid(revision, code) => if revision < 1 || done == 0 then s else s.(result := Some(Rejected(revision, code)))
    case Valid(next) =>
      match Judge(s.active, next)
      case Refuse(code) => if done == 0 then s else s.(result := Some(Rejected(next.revision, code)))
      case Confirm => if done == 0 then s else s.(result := Some(Accepted(next.revision, next.hash)))
      case Activate =>
        if done == 0 then s
        else
          var staged := s.(staging := Some(next));
          var rts := Reconciled(s.runtimes, PlansOf(s.active), next.plans, clock);
          if done == 1 || rts.None? then staged
          else Store(Some(next), None, rts.value, Some(Accepted(next.revision, next.hash)))
  }

  // ----- runs -----

  /** The scheduler's steps on an active plan come between snapshots, under the same mutex. */
  datatype Event =
    | Snapshotted(snapshot: Snapshot, clock: Clock, done: nat)
    | PlanAdvanced(index: nat, key: (Id, Time) -> Id, records: Records, now: Time, seen: set<Id>, choice: Sched.Choice)
    | ResultSent(revision: int)

  function Advance(s: Store, e: Event): Store {
    match e
    case Snapshotted(x, clock, done) => Apply(s, x, clock, done)
    case PlanAdvanced(i, key, records, now, seen, c) =>
      if i >= |PlansOf(s.active)| || c.fault then s
      else
        var w := Sched.World(records, s.runtimes, map[], Sched.Free);
        var p := PlansOf(s.active)[i];
        s.(runtimes := Sched.Enact(w, p, now, Sched.Decide(w, key, p, now, seen, c)).runtimes)
    case ResultSent(revision) => if s.result.Some? && s.result.value.revision == revision then s.(result := None) else s
  }

  function Run(es: seq<Event>): Store {
    if es == [] then Store(None, None, map[], None) else Advance(Run(es[..|es| - 1]), es[|es| - 1])
  }

  /** No snapshot gives one identifier to two different plans. */
  predicate ConsistentRun(es: seq<Event>) {
    forall i :: 0 <= i < |es| && es[i].Snapshotted? && es[i].snapshot.Valid? ==> Consistent(es[i].snapshot.state.plans)
  }

  /** The runtime table holds exactly the active plans, each under its current revision and hash. */
  predicate Matches(rts: map<Id, Runtime>, plans: seq<Plan>) {
    && rts.Keys == PlanIds(plans)
    && forall i :: 0 <= i < |plans| ==>
         plans[i].id in rts && rts[plans[i].id].plan == plans[i].id && rts[plans[i].id].revision == plans[i].revision && rts[plans[i].id].hash == plans[i].hash
  }

  predicate Inv(s: Store) {
    Consistent(PlansOf(s.active)) && Matches(s.runtimes, PlansOf(s.active))
  }

  /** After the first n plans, each of them has its own runtime and the others are as before. */
  lemma {:induction false} PutExact(rts: map<Id, Runtime>, previous: seq<Plan>, plans: seq<Plan>, n: nat, clock: Clock)
    requires n <= |plans| && DistinctPlans(plans) && Put(rts, previous, plans, n, clock).Some?
    ensures var out := Put(rts, previous, plans, n, clock).value;
            && (forall i :: 0 <= i < n ==>
                  plans[i].id in out &&
                  out[plans[i].id] == RuntimeFor(rts, PlanNamed(previous, plans[i].id), plans[i], if clock(plans[i]).Some? then clock(plans[i]).value else None))
            && (forall id :: id in rts ==> id in out)
            && (forall j :: n <= j < |plans| ==> (plans[j].id in out <==> plans[j].id in rts) && (plans[j].id in rts ==> out[plans[j].id] == rts[plans[j].id]))
  {
    if n > 0 {
      PutExact(rts, previous, plans, n - 1, clock);
      hide PlanNamed, SameSchedule;
    }
  }

  /**
    A reconciliation leaves exactly the new plans, each under its revision and hash;
    a plan whose schedule did not change keeps its runtime, any other gets a new next run.
   */
  lemma {:induction false} ReconcileExact(rts: map<Id, Runtime>, previous: seq<Plan>, plans: seq<Plan>, clock: Clock)
    requires DistinctPlans(plans) && Reconciled(rts, previous, plans, clock).Some?
    ensures var out := Reconciled(rts, previous, plans, clock).value;
            && Matches(out, plans)
            && forall i :: 0 <= i < |plans| ==>
                 plans[i].id in out &&
                 out[plans[i].id] == RuntimeFor(rts, PlanNamed(previous, plans[i].id), plans[i], if clock(plans[i]).Some? then clock(plans[i]).value else None)
  {
    PutExact(rts, previous, plans, |plans|, clock);
    hide PlanNamed, SameSchedule, Put;
    var out := Reconciled(rts, previous, plans, clock).value;
    forall i | 0 <= i < |plans| ensures plans[i].id in PlanIds(plans) { }
    assert out.Keys == PlanIds(plans);
  }

  /** Position i holds the last of the first n plans under its identifier. */
  predicate LastAt(plans: seq<Plan>, n: nat, i: int) {
    0 <= i < n <= |plans| && forall j :: i < j < n ==> plans[j].id != plans[i].id
  }

  predicate Names(rt: Runtime, p: Plan) {
    rt.plan == p.id && rt.revision == p.revision && rt.hash == p.hash
  }

  /** Whatever the identifiers, each ends with the revision and hash of its last plan. */
  lemma {:induction false} PutLast(rts: map<Id, Runtime>, previous: seq<Plan>, plans: seq<Plan>, n: nat, clock: Clock)
    requires n <= |plans| && Put(rts, previous, plans, n, clock).Some?
    ensures var out := Put(rts, previous, plans, n, clock).value;
            && (forall i :: 0 <= i < n ==> plans[i].id in out)
            && (forall i :: 0 <= i < n && LastAt(plans, n, i) ==> Names(out[plans[i].id], plans[i]))
  {
    if n > 0 {
      PutStep(rts, previous, plans, n, clock);
      hide Put, Names;
      PutLast(rts, previous, plans, n - 1, clock);
      forall i | 0 <= i < n - 1 && LastAt(plans, n, i) ensures LastAt(plans, n - 1, i) && plans[i].id != plans[n - 1].id { }
      hide LastAt;
    }
  }

  lemma PutStep(rts: map<Id, Runtime>, previous: seq<Plan>, plans: seq<Plan>, n: nat, clock: Clock)
    requires 0 < n <= |plans| && Put(rts, previous, plans, n, clock).Some?
    ensures var p := plans[n - 1]; var before := Put(rts, previous, plans, n - 1, clock); var out := Put(rts, previous, plans, n, clock).value;
            before.Some? && p.id in out && Names(out[p.id], p) && out == before.value[p.id := out[p.id]]
  {
    hide PlanNamed, SameSchedule;
  }

  lemma {:induction false} HasLast(plans: seq<Plan>, n: nat, i: nat) returns (k: nat)
    requires i < n <= |plans|
    ensures i <= k && LastAt(plans, n, k) && plans[k].id == plans[i].id
    decreases n - i
  {
    k := i;
    if j :| i < j < n && plans[j].id == plans[i].id { k := HasLast(plans, n, j); }
  }

  /** The table matches the new plans if and only if no identifier stands for two different plans. */
  lemma MatchesIffConsistent(rts: map<Id, Runtime>, previous: seq<Plan>, plans: seq<Plan>, clock: Clock)
    requires Reconciled(rts, previous, plans, clock).Some?
    ensures Matches(Reconciled(rts, previous, plans, clock).value, plans) <==> Consistent(plans)
  {
    var all := Put(rts, previous, plans, |plans|, clock).value;
    var out := Reconciled(rts, previous, plans, clock).value;
    PutLast(rts, previous, plans, |plans|, clock);
    hide Put, PlanNamed, SameSchedule;
    forall i | 0 <= i < |plans| ensures plans[i].id in PlanIds(plans) && plans[i].id in out { }
    assert out.Keys == PlanIds(plans);
    if Consistent(plans) {
      forall i | 0 <= i < |plans| ensures Names(out[plans[i].id], plans[i]) {
        var k := HasLast(plans, |plans|, i);
        assert Names(all[plans[k].id], plans[k]);
      }
    }
  }

  lemma {:induction false} PlanStepMatches(s: Store, i: nat, key: (Id, Time) -> Id, records: Records, now: Time, seen: set<Id>, c: Sched.Choice)
    requires Inv(s)
    ensures Matches(Advance(s, PlanAdvanced(i, key, records, now, seen, c)).runtimes, PlansOf(s.active))
  {
    var plans := PlansOf(s.active);
    if i < |plans| && !c.fault {
      var w := Sched.World(records, s.runtimes, map[], Sched.Free);
      var d := Sched.Decide(w, key, plans[i], now, seen, c);
      assert plans[i].id in PlanIds(plans);
      assert !d.Nothing? ==> d.runtime.plan == plans[i].id && d.runtime.revision == plans[i].revision && d.runtime.hash == plans[i].hash;
      hide Sched.Decide;
      var rts := Sched.Enact(w, plans[i], now, d).runtimes;
      assert rts.Keys == s.runtimes.Keys;
    }
  }

  lemma StepInv(s: Store, e: Event)
    requires Inv(s) && ConsistentRun([e])
    ensures Inv(Advance(s, e))
  {
    match e
    case Snapshotted(x, clock, done) =>
      assert [e][0] == e;
      if x.Valid? && Reconciled(s.runtimes, PlansOf(s.active), x.state.plans, clock).Some? {
        MatchesIffConsistent(s.runtimes, PlansOf(s.active), x.state.plans, clock);
      }
      hide Reconciled, Matches;
    case PlanAdvanced(i, key, records, now, seen, c) => PlanStepMatches(s, i, key, records, now, seen, c); hide Matches, Sched.Decide, Sched.Enact;
    case ResultSent(revision) =>
  }

  /** After every activation, and after every scheduler step since, the runtimes are exactly the active plans'. */
  lemma {:induction false} RuntimesMatch(es: seq<Event>)
    requires ConsistentRun(es)
    ensures Inv(Run(es))
  {
    if es != [] {
      var last := es[|es| - 1];
      RuntimesMatch(es[..|es| - 1]);
      assert ConsistentRun([last]);
      StepInv(Run(es[..|es| - 1]), last);
    }
  }

  predicate NotBefore(a: Option<DesiredState>, b: Option<DesiredState>) {
    a.Some? ==> b.Some? && a.value.revision <= b.value.revision && (a.value.revision == b.value.revision ==> a == b)
  }

  /**
    Over every sequence of snapshots, crashes and scheduler steps the active revision
    never falls, and while it stays the whole active state stays, so no revision ever
    has two hashes.
   */
  lemma {:induction false} RevisionsNeverFall(es: seq<Event>, n: nat)
    requires n <= |es|
    ensures NotBefore(Run(es[..n]).active, Run(es).active)
    decreases |es|
  {
    if n == |es| {
      assert es[..n] == es;
    } else {
      var before := es[..|es| - 1];
      assert before[..n] == es[..n];
      RevisionsNeverFall(before, n);
      hide Reconciled, Sched.Decide;
      assert NotBefore(Run(before).active, Run(es).active);
    }
  }
}

module ConfigActivation {
  import opened Basics
  import opened Operations
  import opened Spec = ConfigSpec

  /** The buckets that hold desired state and plan runtimes. */
  class ConfigStore {
    var active: Option<DesiredState>
    var staging: Option<DesiredState>
    var runtimes: map<Id, Runtime>
    var result: Option<ConfigResult>

    function Abs(): Store
      reads this
    {
      Store(active, staging, runtimes, result)
    }

    constructor ()
      ensures Abs() == Run([])
    {
      active, staging, runtimes, result := None, None, map[], None;
    }

    /** The body of the activation transaction, on a copy of the bucket: None rolls it back. */
    static method Reconcile(rts: map<Id, Runtime>, previous: seq<Plan>, plans: seq<Plan>, clock: Clock) returns (out: Option<map<Id, Runtime>>)
      ensures out == Reconciled(rts, previous, plans, clock)
    {
      hide PlanNamed;
      var bucket := rts;
      var present: set<Id> := {};
      var i := 0;
      while i < |plans|
        invariant i <= |plans|
        invariant Put(rts, previous, plans, i, clock) == Some(bucket)
        invariant present == set k | 0 <= k < i :: plans[k].id
      {
        var p := plans[i];
        var rt := if p.id in bucket then bucket[p.id] else Runtime(p.id, 0, "", None, None, None);
        if !SameSchedule(PlanNamed(previous, p.id), p) {
          if clock(p).None? {
            FailedPut(rts, previous, plans, i + 1, clock);
            return None;
          }
          rt := rt.(nextRun := clock(p).value);
        }
        bucket := bucket[p.id := rt.(plan := p.id, revision := p.revision, hash := p.hash)];
        present := present + {p.id};
        i := i + 1;
      }
      var kept := Prune(bucket, present);
      assert present == PlanIds(plans);
      return Some(kept);
    }

    /** Delete every key that is not present. */
    static method Prune(all: map<Id, Runtime>, present: set<Id>) returns (bucket: map<Id, Runtime>)
      ensures bucket == Keep(all, present)
    {
      var rest := all.Keys;
      bucket := all;
      while rest != {}
        invariant rest <= all.Keys && bucket.Keys <= all.Keys
        invariant forall id :: id in all ==> (id in bucket <==> id in rest || id in present)
        invariant forall id :: id in bucket ==> bucket[id] == all[id]
        decreases |rest|
      {
        var id :| id in rest;
        if id !in present { bucket := bucket - {id}; }
        rest := rest - {id};
      }
    }

    /** Once a schedule fails to parse the whole reconciliation fails. */
    static lemma {:induction false} FailedPut(rts: map<Id, Runtime>, previous: seq<Plan>, plans: seq<Plan>, n: nat, clock: Clock)
      requires n <= |plans| && Put(rts, previous, plans, n, clock).None?
      ensures Put(rts, previous, plans, |plans|, clock).None?
      decreases |plans| - n
    {
      if n < |plans| { FailedPut(rts, previous, plans, n + 1, clock); }
    }

    /** `budget` transactions may still commit before the process dies. */
    method ApplyDesiredState(x: Snapshot, clock: Clock, budget: nat)
      modifies this
      ensures Abs() == Apply(old(Abs()), x, clock, budget)
    {
      if x.Invalid? {
        if x.revision >= 1 && budget > 0 { result := Some(Rejected(x.revision, x.code)); }
        return;
      }
      var next := x.state;
      if active.Some? && next.revision < active.value.revision {
        if budget > 0 { result := Some(Rejected(next.revision, "REVISION_ROLLBACK")); }
        return;
      }
      if active.Some? && next.revision == active.value.revision {
        if budget > 0 {
          result := Some(if next.hash != active.value.hash then Rejected(next.revision, "REVISION_CONFLICT") else Accepted(next.revision, next.hash));
        }
        return;
      }
      if budget == 0 { return; }
      staging := Some(next);
      if budget == 1 { return; }
      var rts := Reconcile(runtimes, PlansOf(active), next.plans, clock);
      if rts.None? { return; }
      runtimes, active, result, staging := rts.value, Some(next), Some(Accepted(next.revision, next.hash)), None;
    }
  }
}
