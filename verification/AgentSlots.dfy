/**
  Configuration activation and the scheduler on the records and runtimes that they
  share: what becomes of a slot once it is a plan's stored next run.
 */
module AgentSlots {
  import opened Basics
  import opened Operations
  import Config = ConfigSpec
  import Sched = SchedulerSpec
  import SchedulerRuns
  import SchedulerSlots
  import RetryChains

  type Key = (Id, Time) -> Id

  /** The desired-state buckets beside the scheduler's world, which holds the records and the runtimes. */
  datatype Agent = Agent(active: Option<Config.DesiredState>, staging: Option<Config.DesiredState>,
                         result: Option<Config.ConfigResult>, sched: Sched.World)

  /** `now` is the instant from which an activation computes next runs. */
  datatype Event =
    | Snapshotted(snapshot: Config.Snapshot, clock: Config.Clock, now: Time, done: nat)
    | Scheduled(step: Sched.Event)
    | ResultSent(revision: int)

  function StoreOf(a: Agent): Config.Store {
    Config.Store(a.active, a.staging, a.sched.runtimes, a.result)
  }

  function DesiredOf(a: Agent, key: Key): Sched.Desired {
    Sched.Desired(Config.PlansOf(a.active), if a.active.Some? then a.active.value.maxJobs else 0, key)
  }

  function WithStore(a: Agent, s: Config.Store): Agent {
    Agent(s.active, s.staging, s.result, a.sched.(runtimes := s.runtimes))
  }

  /** Snapshots, ticks and dispatches share the scheduler mutex. */
  function Advance(a: Agent, key: Key, e: Event): Agent {
    match e
    case Snapshotted(x, clock, _, done) =>
      if a.sched.holder != Sched.Free then a else WithStore(a, Config.Apply(StoreOf(a), x, clock, done))
    case Scheduled(step) => a.(sched := Sched.Advance(a.sched, DesiredOf(a, key), step))
    case ResultSent(revision) => WithStore(a, Config.Advance(StoreOf(a), Config.ResultSent(revision)))
  }

  /** Snapshots are consistent, and a next run lies after the instant from which it is computed. */
  ghost predicate Possible(a: Agent, e: Event) {
    match e
    case Snapshotted(x, clock, now, _) =>
      x.Valid? ==>
        && Config.Consistent(x.state.plans)
        && forall p: Plan :: clock(p).Some? && clock(p).value.Some? ==> now < clock(p).value.value
    case Scheduled(step) =>
      && Sched.Possible(a.sched, step)
      && (step.TickPlan? && a.sched.holder.Deciding? && step.choice.next.Some? ==> a.sched.holder.now < step.choice.next.value)
    case ResultSent(_) => true
  }

  function Start(): Agent {
    Agent(None, None, None, Sched.World(map[], map[], map[], Sched.Free))
  }

  function Run(key: Key, es: seq<Event>): Agent {
    if es == [] then Start() else Advance(Run(key, es[..|es| - 1]), key, es[|es| - 1])
  }

  ghost predicate PossibleRun(key: Key, es: seq<Event>) {
    es == [] || (PossibleRun(key, es[..|es| - 1]) && Possible(Run(key, es[..|es| - 1]), es[|es| - 1]))
  }

  // ----- slots -----

  function NextOf(rts: map<Id, Runtime>, id: Id): Option<Time> {
    if id in rts then rts[id].nextRun else None
  }

  /** The plan's stored next run is replaced or deleted, and has no record. */
  predicate Drops(a: Agent, v: Agent, key: Key, id: Id) {
    var t := NextOf(a.sched.runtimes, id);
    t.Some? && NextOf(v.sched.runtimes, id) != t && key(id, t.value) !in v.sched.records
  }

  /** The snapshot's activation commits. */
  predicate Activates(a: Agent, e: Event) {
    && e.Snapshotted? && a.sched.holder == Sched.Free && e.snapshot.Valid? && e.done >= 2
    && Config.Judge(a.active, e.snapshot.state) == Config.Activate
    && Config.Reconciled(a.sched.runtimes, Config.PlansOf(a.active), e.snapshot.state.plans, e.clock).Some?
  }

  /** Among the first n plans one under the identifier differs from the previous one in revision, hash or clock. */
  predicate Rescheduled(previous: seq<Plan>, plans: seq<Plan>, n: nat, id: Id)
    requires n <= |plans|
  {
    exists j :: 0 <= j < n && plans[j].id == id && !Config.SameSchedule(Config.PlanNamed(previous, id), plans[j])
  }

  /** The plan is gone, or has another schedule. */
  predicate Unsettles(a: Agent, e: Event, id: Id)
    requires e.Snapshotted? && e.snapshot.Valid?
  {
    var plans := e.snapshot.state.plans;
    id !in Config.PlanIds(plans) || Rescheduled(Config.PlansOf(a.active), plans, |plans|, id)
  }

  // ----- what activation does to one next run -----

  /** After the first n plans: a next run from the clock if one of them was rescheduled, else the old one. */
  lemma {:induction false} PutNext(rts: map<Id, Runtime>, previous: seq<Plan>, plans: seq<Plan>, n: nat, clock: Config.Clock, id: Id)
    requires n <= |plans| && Config.Put(rts, previous, plans, n, clock).Some?
    ensures var next := NextOf(Config.Put(rts, previous, plans, n, clock).value, id);
            if Rescheduled(previous, plans, n, id) then exists p: Plan :: clock(p) == Some(next) else next == NextOf(rts, id)
  {
    hide Config.PlanNamed, Config.SameSchedule;
    if n > 0 {
      var p := plans[n - 1];
      PutNext(rts, previous, plans, n - 1, clock, id);
      if p.id == id && !Config.SameSchedule(Config.PlanNamed(previous, id), p) {
        assert Rescheduled(previous, plans, n, id);
        assert clock(p) == Some(NextOf(Config.Put(rts, previous, plans, n, clock).value, id));
      } else {
        assert Rescheduled(previous, plans, n, id) == Rescheduled(previous, plans, n - 1, id);
      }
    }
  }

  lemma ReconciledNext(rts: map<Id, Runtime>, previous: seq<Plan>, plans: seq<Plan>, clock: Config.Clock, id: Id)
    requires Config.Reconciled(rts, previous, plans, clock).Some?
    ensures var next := NextOf(Config.Reconciled(rts, previous, plans, clock).value, id);
            if id !in Config.PlanIds(plans) then next == None
            else if Rescheduled(previous, plans, |plans|, id) then exists p: Plan :: clock(p) == Some(next)
            else next == NextOf(rts, id)
  {
    hide Config.Put, Rescheduled;
    PutNext(rts, previous, plans, |plans|, clock, id);
  }

  lemma SnapshotNext(a: Agent, key: Key, e: Event, id: Id)
    requires Possible(a, e) && e.Snapshotted?
    ensures var v := Advance(a, key, e); v.sched.records == a.sched.records
    ensures var next := NextOf(Advance(a, key, e).sched.runtimes, id);
            if Activates(a, e) && Unsettles(a, e, id) then next.Some? ==> e.now < next.value
            else next == NextOf(a.sched.runtimes, id)
  {
    hide Config.Reconciled, Rescheduled, Config.Consistent;
    if Activates(a, e) {
      ReconciledNext(a.sched.runtimes, Config.PlansOf(a.active), e.snapshot.state.plans, e.clock, id);
    }
  }

  // ----- what a tick does to one next run -----

  /** A decision on a plan whose runtime is its own moves on from a due slot only with its record. */
  lemma DecideKeeps(w: Sched.World, key: Key, p: Plan, now: Time, seen: set<Id>, c: Sched.Choice)
    requires p.id in w.runtimes && w.runtimes[p.id].revision == p.revision && w.runtimes[p.id].hash == p.hash
    requires w.runtimes[p.id].nextRun.Some?
    ensures var v := Sched.Enact(w, p, now, Sched.Decide(w, key, p, now, seen, c)); var t := w.runtimes[p.id].nextRun;
            NextOf(v.runtimes, p.id) == t || key(p.id, t.value) in v.records
  {
    hide ConcurrencySkip;
  }

  lemma TickKeeps(w: Sched.World, d: Sched.Desired, c: Sched.Choice, id: Id)
    requires Config.Matches(w.runtimes, d.plans) && NextOf(w.runtimes, id).Some?
    ensures var v := Sched.Advance(w, d, Sched.TickPlan(c)); var t := NextOf(w.runtimes, id);
            NextOf(v.runtimes, id) == t || d.key(id, t.value) in v.records
  {
    if w.holder.Deciding? && w.holder.next < |d.plans| && !c.fault {
      var p := d.plans[w.holder.next];
      if p.id == id { DecideKeeps(w, d.key, p, w.holder.now, w.holder.seen, c); }
      hide Sched.Decide;
    }
  }

  /** A tick leaves each runtime under its plan's revision and hash. */
  lemma TickMatches(w: Sched.World, d: Sched.Desired, c: Sched.Choice)
    requires Config.Matches(w.runtimes, d.plans)
    ensures Config.Matches(Sched.Advance(w, d, Sched.TickPlan(c)).runtimes, d.plans)
  {
    if w.holder.Deciding? && w.holder.next < |d.plans| && !c.fault {
      var p := d.plans[w.holder.next];
      var x := Sched.Decide(w, d.key, p, w.holder.now, w.holder.seen, c);
      assert p.id in Config.PlanIds(d.plans);
      assert !x.Nothing? ==> Config.Names(x.runtime, p);
      hide Sched.Decide;
      assert Sched.Advance(w, d, Sched.TickPlan(c)).runtimes.Keys == w.runtimes.Keys;
      assert !x.Nothing? ==> Sched.Advance(w, d, Sched.TickPlan(c)).runtimes == w.runtimes[p.id := x.runtime];
    }
  }

  // ----- what every run keeps -----

  predicate Inv(a: Agent) {
    Config.Inv(StoreOf(a)) && SchedulerRuns.Sane(a.sched)
  }

  lemma SnapshotInv(a: Agent, key: Key, e: Event)
    requires Inv(a) && Possible(a, e) && e.Snapshotted?
    ensures Inv(Advance(a, key, e))
  {
    var x := Config.Snapshotted(e.snapshot, e.clock, e.done);
    assert Config.ConsistentRun([x]);
    Config.StepInv(StoreOf(a), x);
    hide Config.Inv, Config.Apply;
  }

  lemma ScheduledInv(a: Agent, key: Key, step: Sched.Event)
    requires Inv(a) && Sched.Possible(a.sched, step)
    ensures Inv(Advance(a, key, Scheduled(step)))
  {
    var d := DesiredOf(a, key);
    SchedulerRuns.SaneStep(a.sched, d, step);
    if step.TickPlan? { TickMatches(a.sched, d, step.choice); } else { SchedulerSlots.OthersLeaveRuntimes(a.sched, d, step); }
    hide SchedulerRuns.Sane, Sched.Advance, Config.Matches, Config.Consistent;
  }

  lemma StepInv(a: Agent, key: Key, e: Event)
    requires Inv(a) && Possible(a, e)
    ensures Inv(Advance(a, key, e))
  {
    match e
    case Snapshotted(_, _, _, _) => SnapshotInv(a, key, e);
    case Scheduled(step) => ScheduledInv(a, key, step);
    case ResultSent(_) => hide Config.Matches, Config.Consistent, SchedulerRuns.Sane;
  }

  lemma {:induction false} RunInv(key: Key, es: seq<Event>)
    requires PossibleRun(key, es)
    ensures Inv(Run(key, es))
  {
    if es != [] {
      RunInv(key, es[..|es| - 1]);
      StepInv(Run(key, es[..|es| - 1]), key, es[|es| - 1]);
    }
  }

  /** No record ever disappears. */
  lemma RecordsStay(a: Agent, key: Key, e: Event)
    requires Inv(a) && Possible(a, e)
    ensures a.sched.records.Keys <= Advance(a, key, e).sched.records.Keys
  {
    hide Config.Inv, SchedulerRuns.Sane;
    match e
    case Snapshotted(_, _, _, _) => hide Config.Apply;
    case Scheduled(step) =>
      RetryChains.StepEvolves(a.sched, DesiredOf(a, key), step);
      hide Sched.Advance, RetryChains.SameLink;
    case ResultSent(_) =>
  }

  /** One step: a stored next run stays, or has its record, or an activation unsettles its plan. */
  lemma StepKeeps(a: Agent, key: Key, e: Event, id: Id)
    requires Inv(a) && Possible(a, e) && NextOf(a.sched.runtimes, id).Some?
    ensures var v := Advance(a, key, e); var t := NextOf(a.sched.runtimes, id);
            NextOf(v.sched.runtimes, id) == t || key(id, t.value) in v.sched.records || (Activates(a, e) && Unsettles(a, e, id))
  {
    match e
    case Snapshotted(_, _, _, _) => SnapshotNext(a, key, e, id); hide Config.Apply, Config.Reconciled, Activates, Unsettles, Config.Inv;
    case Scheduled(step) =>
      var d := DesiredOf(a, key);
      if step.TickPlan? { TickKeeps(a.sched, d, step.choice, id); } else { SchedulerSlots.OthersLeaveRuntimes(a.sched, d, step); }
      hide Sched.Advance, Config.Matches, Config.Consistent;
    case ResultSent(_) =>
  }

  // ----- over every run -----

  /**
    After every run, a step replaces or deletes a plan's next run that has come due, and
    leaves no record for it, if and only if it is an activation that commits, removes the
    plan or gives it another schedule, and finds no record there.  A tick drops none,
    and neither does a restart.
   */
  lemma {:induction false} DroppedIff(key: Key, es: seq<Event>, e: Event, id: Id)
    requires PossibleRun(key, es) && Possible(Run(key, es), e) && NextOf(Run(key, es).sched.runtimes, id).Some?
    requires e.Snapshotted? ==> NextOf(Run(key, es).sched.runtimes, id).value <= e.now
    ensures var a := Run(key, es);
            Drops(a, Advance(a, key, e), key, id) <==>
              Activates(a, e) && Unsettles(a, e, id) && key(id, NextOf(a.sched.runtimes, id).value) !in a.sched.records
  {
    hide Run, Inv, Unsettles;
    var a := Run(key, es);
    RunInv(key, es);
    StepKeeps(a, key, e, id);
    if e.Snapshotted? { SnapshotNext(a, key, e, id); }
    RecordsStay(a, key, e);
    hide Advance, Config.Reconciled;
  }

  /** The slot was the plan's next run when this activation unsettled the plan. */
  ghost predicate Unsettled(key: Key, es: seq<Event>, m: nat, id: Id, t: Time)
    requires m < |es|
  {
    var a := Run(key, es[..m]);
    NextOf(a.sched.runtimes, id) == Some(t) && Activates(a, es[m]) && Unsettles(a, es[m], id)
  }

  lemma StillUnsettled(key: Key, es: seq<Event>, m: nat, id: Id, t: Time)
    requires m < |es| - 1 && Unsettled(key, es[..|es| - 1], m, id, t)
    ensures Unsettled(key, es, m, id, t)
  {
    hide Run, Activates, Unsettles, NextOf;
    assert es[..|es| - 1][..m] == es[..m];
  }

  /**
    Every slot that was ever a plan's next run is accounted for: it still is, or it has
    its record, or an activation removed the plan or gave it another schedule meanwhile.
   */
  lemma {:induction false} SlotsAccounted(key: Key, es: seq<Event>, n: nat, id: Id, t: Time)
    requires PossibleRun(key, es) && n <= |es| && NextOf(Run(key, es[..n]).sched.runtimes, id) == Some(t)
    ensures || NextOf(Run(key, es).sched.runtimes, id) == Some(t)
            || key(id, t) in Run(key, es).sched.records
            || exists m :: n <= m < |es| && Unsettled(key, es, m, id, t)
    decreases |es|
  {
    if n == |es| {
      assert es[..n] == es;
    } else {
      var before, e := es[..|es| - 1], es[|es| - 1];
      var a := Run(key, before);
      assert before[..n] == es[..n];
      SlotsAccounted(key, before, n, id, t);
      RunInv(key, before);
      hide Inv, Activates, Unsettles, Advance, Possible, NextOf;
      RecordsStay(a, key, e);
      if m :| n <= m < |before| && Unsettled(key, before, m, id, t) {
        StillUnsettled(key, es, m, id, t);
      } else if NextOf(a.sched.runtimes, id) == Some(t) {
        StepKeeps(a, key, e, id);
        if Activates(a, e) && Unsettles(a, e, id) { assert Unsettled(key, es, |es| - 1, id, t); }
      }
    }
  }

  // ----- no slot twice, whatever is activated -----

  function Made(a: Agent, key: Key, e: Event): Option<SchedulerSlots.Slot> {
    if e.Scheduled? then SchedulerSlots.Made(a.sched, DesiredOf(a, key), e.step) else None
  }

  /** The slots that ticks turned into records, in order. */
  function Slots(key: Key, es: seq<Event>): seq<SchedulerSlots.Slot> {
    if es == [] then []
    else
      var before := Slots(key, es[..|es| - 1]);
      var made := Made(Run(key, es[..|es| - 1]), key, es[|es| - 1]);
      if made.Some? then before + [made.value] else before
  }

  /** The slots have different keys, and each has its record. */
  predicate Keyed(rs: Records, key: Key, slots: seq<SchedulerSlots.Slot>) {
    && (forall i :: 0 <= i < |slots| ==> key(slots[i].plan, slots[i].scheduled) in rs)
    && (forall i, j :: 0 <= i < j < |slots| ==> key(slots[i].plan, slots[i].scheduled) != key(slots[j].plan, slots[j].scheduled))
  }

  lemma MadeKeyed(a: Agent, key: Key, e: Event)
    ensures var made := Made(a, key, e);
            made.Some? ==> var k := key(made.value.plan, made.value.scheduled); k !in a.sched.records && k in Advance(a, key, e).sched.records
  {
    hide SchedulerSlots.Made, Sched.Advance;
    if e.Scheduled? { SchedulerSlots.SlotKeys(a.sched, DesiredOf(a, key), e.step); }
  }

  lemma {:induction false} SlotsKeyed(key: Key, es: seq<Event>)
    requires PossibleRun(key, es)
    ensures Keyed(Run(key, es).sched.records, key, Slots(key, es))
  {
    if es != [] {
      var before, e := es[..|es| - 1], es[|es| - 1];
      SlotsKeyed(key, before);
      RunInv(key, before);
      hide Inv, Advance, Made, Possible;
      RecordsStay(Run(key, before), key, e);
      MadeKeyed(Run(key, before), key, e);
    }
  }

  /**
    In every run, whatever the clock shows, whatever is activated and however often the
    agent restarts, no slot is turned into a record twice.
   */
  lemma {:induction false} NoSlotTwice(key: Key, es: seq<Event>, i: nat, j: nat)
    requires PossibleRun(key, es) && i < j < |Slots(key, es)|
    ensures Slots(key, es)[i] != Slots(key, es)[j]
  {
    SlotsKeyed(key, es);
    hide Slots, Run;
  }

  // ----- runs that leave an instant without a record -----

  function Every(t: Time): Config.Clock {
    (p: Plan) => Some(Some(t))
  }

  /** A snapshot with one plan, activated at `now`. */
  function Activation(revision: int, p: Plan, now: Time, next: Time): Event {
    Snapshotted(Config.Valid(Config.DesiredState(revision, "", [p], 1)), Every(next), now, 2)
  }

  lemma ActivationApplies(a: Agent, key: Key, revision: int, p: Plan, now: Time, next: Time)
    requires a.sched.holder == Sched.Free && now < next && (a.active.Some? ==> a.active.value.revision < revision)
    requires !Config.SameSchedule(Config.PlanNamed(Config.PlansOf(a.active), p.id), p)
    ensures var e := Activation(revision, p, now, next); var v := Advance(a, key, e);
            && Possible(a, e) && Activates(a, e) && Unsettles(a, e, p.id)
            && v.active == Some(e.snapshot.state) && v.sched == a.sched.(runtimes := v.sched.runtimes)
            && v.sched.runtimes.Keys == {p.id} && v.sched.runtimes[p.id].nextRun == Some(next)
            && v.sched.runtimes[p.id].revision == p.revision && v.sched.runtimes[p.id].hash == p.hash
  {
    hide Config.PlanNamed, Config.SameSchedule;
    var rts, plans := a.sched.runtimes, Config.PlansOf(a.active);
    assert Config.Put(rts, plans, [p], 0, Every(next)) == Some(rts);
    assert Config.Put(rts, plans, [p], 1, Every(next)) ==
           Some(rts[p.id := Config.RuntimeFor(rts, Config.PlanNamed(plans, p.id), p, Some(next))]);
    assert Config.PlanIds([p]) == {p.id} by { assert [p][0].id in Config.PlanIds([p]); }
    assert [p][0] == p;
  }

  lemma RunMore(key: Key, es: seq<Event>, e: Event)
    requires PossibleRun(key, es) && Possible(Run(key, es), e)
    ensures PossibleRun(key, es + [e]) && Run(key, es + [e]) == Advance(Run(key, es), key, e)
  {
    hide Advance, Possible;
    assert (es + [e])[..|es + [e]| - 1] == es;
  }

  lemma FirstActivation(key: Key, p: Plan) returns (es: seq<Event>)
    ensures PossibleRun(key, es)
    ensures var a := Run(key, es);
            && a.sched.holder == Sched.Free && a.sched.records == map[] && a.active == Some(Config.DesiredState(1, "", [p], 1))
            && a.sched.runtimes.Keys == {p.id} && a.sched.runtimes[p.id].nextRun == Some(10)
            && a.sched.runtimes[p.id].revision == p.revision && a.sched.runtimes[p.id].hash == p.hash
  {
    var e := Activation(1, p, 0, 10);
    ActivationApplies(Start(), key, 1, p, 0, 10);
    assert PossibleRun(key, []) && Run(key, []) == Start();
    hide Advance, Possible;
    RunMore(key, [], e);
    es := [] + [e];
  }

  /** A new revision that arrives while a slot is due and not yet recorded replaces it. */
  lemma {:induction false} ActivationDropsSlot(key: Key, p: Plan)
    ensures exists es, e :: PossibleRun(key, es) && Possible(Run(key, es), e) &&
              e.Snapshotted? && NextOf(Run(key, es).sched.runtimes, p.id) == Some(10) && 10 <= e.now &&
              Drops(Run(key, es), Advance(Run(key, es), key, e), key, p.id)
  {
    var es := FirstActivation(key, p);
    var a, q := Run(key, es), p.(revision := p.revision + 1);
    assert [p][..0] == [] && Config.PlanNamed([p], p.id) == Some(p);
    hide Run, PossibleRun, Advance, Possible;
    ActivationApplies(a, key, 2, q, 15, 30);
    assert Drops(a, Advance(a, key, Activation(2, q, 15, 30)), key, p.id);
  }

  /** The one tick after a downtime records the stored slot and no later instant. */
  lemma {:induction false} DowntimeLeavesInstants(key: Key, p: Plan)
    ensures exists es :: PossibleRun(key, es) &&
              var a := Run(key, es);
              a.sched.records.Keys == {key(p.id, 10)} && a.sched.holder == Sched.Free && NextOf(a.sched.runtimes, p.id) == Some(30)
  {
    hide Run, PossibleRun, Advance, Possible;
    var es := FirstActivation(key, p);
    var a := Run(key, es);
    var c := Sched.Choice(true, Some(30), true, false);
    DowntimeBegins(a, key, p);
    RunMore(key, es, Scheduled(Sched.TickStart(25)));
    var es1 := es + [Scheduled(Sched.TickStart(25))];
    RunMore(key, es1, Scheduled(Sched.TickCheck));
    var es2 := es1 + [Scheduled(Sched.TickCheck)];
    DowntimeTick(Run(key, es2), key, p, c);
    RunMore(key, es2, Scheduled(Sched.TickPlan(c)));
    var es3 := es2 + [Scheduled(Sched.TickPlan(c))];
    DowntimeEnds(Run(key, es3), key);
    RunMore(key, es3, Scheduled(Sched.TickEnd));
  }

  lemma DowntimeBegins(a: Agent, key: Key, p: Plan)
    requires a.active == Some(Config.DesiredState(1, "", [p], 1)) && a.sched.records == map[] && a.sched.holder == Sched.Free
    ensures Possible(a, Scheduled(Sched.TickStart(25)))
    ensures var b := Advance(a, key, Scheduled(Sched.TickStart(25)));
            && Possible(b, Scheduled(Sched.TickCheck))
            && Advance(b, key, Scheduled(Sched.TickCheck)) == a.(sched := a.sched.(holder := Sched.Deciding({}, 0, 25)))
  {
    assert RunningIds(a.sched.records) == {} && Sched.RunningPlans(a.sched.records) == {};
    hide RunningIds, Sched.RunningPlans, ConcurrencySkip;
  }

  lemma DowntimeEnds(b: Agent, key: Key)
    requires b.sched.holder.Scanning?
    ensures Possible(b, Scheduled(Sched.TickEnd))
    ensures Advance(b, key, Scheduled(Sched.TickEnd)) == b.(sched := b.sched.(holder := Sched.Free))
  {
  }

  lemma DowntimeTick(b: Agent, key: Key, p: Plan, c: Sched.Choice)
    requires b.active == Some(Config.DesiredState(1, "", [p], 1)) && b.sched.records == map[]
    requires b.sched.holder == Sched.Deciding({}, 0, 25) && c == Sched.Choice(true, Some(30), true, false)
    requires p.id in b.sched.runtimes && b.sched.runtimes[p.id].nextRun == Some(10)
    requires b.sched.runtimes[p.id].revision == p.revision && b.sched.runtimes[p.id].hash == p.hash
    ensures Possible(b, Scheduled(Sched.TickPlan(c)))
    ensures var v := Advance(b, key, Scheduled(Sched.TickPlan(c)));
            v.sched.records.Keys == {key(p.id, 10)} && v.sched.holder.Scanning? && NextOf(v.sched.runtimes, p.id) == Some(30)
  {
    hide EqualFold;
  }
}
