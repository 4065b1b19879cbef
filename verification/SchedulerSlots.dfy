/** Scheduled slots: none is made twice, and none that is passed over goes unrecorded. */
module SchedulerSlots {
  import opened Basics
  import opened Operations
  import opened SchedulerSpec
  import RetryChains
  import SchedulerRuns

  /** A slot that a tick turned into a record: started, missed or skipped. */
  datatype Slot = Slot(plan: Id, scheduled: Time)

  function Made(w: World, d: Desired, e: Event): Option<Slot> {
    if !e.TickPlan? || !w.holder.Deciding? || w.holder.next >= |d.plans| || e.choice.fault then None
    else
      var plan := d.plans[w.holder.next];
      var x := Decide(w, d.key, plan, w.holder.now, w.holder.seen, e.choice);
      if x.Put? then Some(Slot(plan.id, x.record.scheduled)) else None
  }

  function Slots(w: World, d: Desired, es: seq<Event>): seq<Slot> {
    if es == [] then []
    else
      var before := Slots(w, d, es[..|es| - 1]);
      var made := Made(Run(w, d, es[..|es| - 1]), d, es[|es| - 1]);
      if made.Some? then before + [made.value] else before
  }

  /** The stored revision or hash of the plan is not the active one. */
  predicate Changed(w: World, p: Plan) {
    p.id in w.runtimes && w.runtimes[p.id].revision != 0 && (w.runtimes[p.id].revision != p.revision || w.runtimes[p.id].hash != p.hash)
  }

  /** The due slot that a plan moves on from in this step, whatever became of it. */
  function Left(w: World, d: Desired, e: Event): Option<Slot> {
    if !e.TickPlan? || !w.holder.Deciding? || w.holder.next >= |d.plans| then None
    else
      var p := d.plans[w.holder.next];
      if p.id in w.runtimes && w.runtimes[p.id].nextRun.Some? && w.runtimes[p.id].nextRun.value <= w.holder.now &&
         Advance(w, d, e).runtimes != w.runtimes
      then Some(Slot(p.id, w.runtimes[p.id].nextRun.value))
      else None
  }

  /** A slot that an unchanged plan moves on from. */
  function Passed(w: World, d: Desired, e: Event): Option<Slot> {
    var left := Left(w, d, e);
    if left.Some? && !Changed(w, d.plans[w.holder.next]) then left else None
  }

  function AllPassed(w: World, d: Desired, es: seq<Event>): seq<Slot> {
    if es == [] then []
    else
      var before := AllPassed(w, d, es[..|es| - 1]);
      var passed := Passed(Run(w, d, es[..|es| - 1]), d, es[|es| - 1]);
      if passed.Some? then before + [passed.value] else before
  }

  // ----- identity: the record under a slot's key -----

  /** Every slot's record is stored under the key of its plan and time. */
  predicate Keyed(w: World, d: Desired, slots: seq<Slot>) {
    forall i :: 0 <= i < |slots| ==> d.key(slots[i].plan, slots[i].scheduled) in w.records
  }

  predicate Distinct(d: Desired, slots: seq<Slot>) {
    forall i, j :: 0 <= i < j < |slots| ==>
      d.key(slots[i].plan, slots[i].scheduled) != d.key(slots[j].plan, slots[j].scheduled)
  }

  /** A slot is made under a free key, and its record is there afterwards; so is that of a slot passed over. */
  lemma SlotKeys(w: World, d: Desired, e: Event)
    ensures var made := Made(w, d, e);
            made.Some? ==> var key := d.key(made.value.plan, made.value.scheduled);
                           && key !in w.records && key in Advance(w, d, e).records
                           && Advance(w, d, e).records[key].scheduled == made.value.scheduled
                           && Advance(w, d, e).records[key].plan == made.value.plan
    ensures var passed := Passed(w, d, e);
            passed.Some? ==> d.key(passed.value.plan, passed.value.scheduled) in Advance(w, d, e).records
  {
    hide ConcurrencySkip;
  }

  /** Records never disappear, so neither do the keys of slots. */
  lemma KeysStay(w: World, d: Desired, e: Event, slots: seq<Slot>)
    requires SchedulerRuns.Inv(w, d) && Possible(w, e) && Keyed(w, d, slots)
    ensures Keyed(Advance(w, d, e), d, slots)
  {
    RetryChains.StepEvolves(w, d, e);
    hide Advance, RetryChains.SameLink, SchedulerRuns.Inv;
  }

  lemma {:induction false} SlotsKeyed(w: World, d: Desired, es: seq<Event>)
    requires Start(w) && PossibleRun(w, d, es)
    ensures Keyed(Run(w, d, es), d, Slots(w, d, es)) && Distinct(d, Slots(w, d, es)) && Keyed(Run(w, d, es), d, AllPassed(w, d, es))
  {
    if es != [] {
      var before, e := es[..|es| - 1], es[|es| - 1];
      var v := Run(w, d, before);
      SlotsKeyed(w, d, before);
      SchedulerRuns.RunInv(w, d, before);
      KeysStay(v, d, e, Slots(w, d, before));
      KeysStay(v, d, e, AllPassed(w, d, before));
      SlotKeys(v, d, e);
      hide Advance, Made, Passed, SchedulerRuns.Inv;
    }
  }

  /**
    In every run, whatever the clock shows and however often the agent restarts, no
    slot is turned into a record twice.
   */
  lemma {:induction false} NoSlotTwice(w: World, d: Desired, es: seq<Event>, i: nat, j: nat)
    requires Start(w) && PossibleRun(w, d, es) && i < j < |Slots(w, d, es)|
    ensures Slots(w, d, es)[i] != Slots(w, d, es)[j]
  {
    SlotsKeyed(w, d, es);
    hide Slots, Run;
  }

  /** In every run, each due slot that an unchanged plan has moved on from has its record, at the end and ever after. */
  lemma {:induction false} PassedSlotIsRecorded(w: World, d: Desired, es: seq<Event>, i: nat)
    requires Start(w) && PossibleRun(w, d, es) && i < |AllPassed(w, d, es)|
    ensures var s := AllPassed(w, d, es)[i]; d.key(s.plan, s.scheduled) in Run(w, d, es).records
  {
    SlotsKeyed(w, d, es);
    hide AllPassed, Run;
  }

  // ----- order -----

  /** The time of the last tick, `start` before the first. */
  function LastTick(start: Time, es: seq<Event>): Time {
    if es == [] then start
    else if es[|es| - 1].TickStart? then es[|es| - 1].now
    else LastTick(start, es[..|es| - 1])
  }

  /** Ticks do not go back in time, and the next run of a plan lies after the tick that asks for it. */
  ghost predicate Timely(start: Time, w: World, d: Desired, es: seq<Event>) {
    es == [] ||
    (var before, e := es[..|es| - 1], es[|es| - 1];
     && Timely(start, w, d, before)
     && (e.TickStart? ==> LastTick(start, before) <= e.now)
     && (e.TickPlan? && Run(w, d, before).holder.Deciding? && e.choice.next.Some? ==> Run(w, d, before).holder.now < e.choice.next.value))
  }

  predicate Ticking(w: World) {
    w.holder.Scanning? || w.holder.Deciding?
  }

  /** The latest time that a slot made so far can have. */
  function Bound(w: World, last: Time): Time {
    if Ticking(w) then w.holder.now else last
  }

  predicate Ascends(slots: seq<Slot>) {
    forall i, j :: 0 <= i < j < |slots| && slots[i].plan == slots[j].plan ==> slots[i].scheduled < slots[j].scheduled
  }

  predicate OrderInv(w: World, last: Time, slots: seq<Slot>) {
    && Bound(w, last) <= last && Ascends(slots)
    && (forall i :: 0 <= i < |slots| ==> slots[i].scheduled <= Bound(w, last))
    && (forall i :: 0 <= i < |slots| && slots[i].plan in w.runtimes && w.runtimes[slots[i].plan].nextRun.Some? ==>
          slots[i].scheduled < w.runtimes[slots[i].plan].nextRun.value)
  }

  /** What a decision does to its plan's next run. */
  lemma NextRunMoves(w: World, key: (Id, Time) -> Id, plan: Plan, now: Time, seen: set<Id>, c: Choice)
    requires c.next.Some? ==> now < c.next.value
    ensures var x := Decide(w, key, plan, now, seen, c);
            && (x.Put? ==> && plan.id in w.runtimes && w.runtimes[plan.id].nextRun == Some(x.record.scheduled) && x.record.scheduled <= now
                           && x.record.plan == plan.id)
            && (x.Put? || x.Remember? ==> x.runtime.nextRun.Some? ==>
                  now < x.runtime.nextRun.value || (plan.id in w.runtimes && x.runtime.nextRun == w.runtimes[plan.id].nextRun))
            && (x.Put? && x.runtime.nextRun.Some? ==> now < x.runtime.nextRun.value)
  {
  }

  lemma TickPlanSlots(w: World, d: Desired, c: Choice, last: Time, slots: seq<Slot>)
    requires OrderInv(w, last, slots) && w.holder.Deciding? && (c.next.Some? ==> w.holder.now < c.next.value)
    ensures var made := Made(w, d, TickPlan(c));
            OrderInv(Advance(w, d, TickPlan(c)), last, if made.Some? then slots + [made.value] else slots)
  {
    if w.holder.next < |d.plans| && !c.fault {
      NextRunMoves(w, d.key, d.plans[w.holder.next], w.holder.now, w.holder.seen, c);
      hide Decide;
    }
  }

  /** Steps other than a tick's leave runtimes alone. */
  lemma OtherSlots(w: World, d: Desired, e: Event, last: Time, slots: seq<Slot>)
    requires OrderInv(w, last, slots) && !e.TickPlan? && (e.TickStart? ==> last <= e.now)
    ensures Made(w, d, e).None?
    ensures OrderInv(Advance(w, d, e), if e.TickStart? then e.now else last, slots)
  {
    OthersLeaveRuntimes(w, d, e);
    hide Ascends, Advance;
  }

  lemma OthersLeaveRuntimes(w: World, d: Desired, e: Event)
    requires !e.TickPlan?
    ensures Advance(w, d, e).runtimes == w.runtimes
    ensures !e.TickStart? ==> Ticking(Advance(w, d, e)) ==> Ticking(w) && Advance(w, d, e).holder.now == w.holder.now
    ensures e.TickStart? ==> Ticking(Advance(w, d, e)) ==> Advance(w, d, e).holder.now == (if Ticking(w) then w.holder.now else e.now)
  {
    hide RunningIds, RunningOf, RunningPlans, ConcurrencySkip, NextAttempt;
  }

  lemma {:induction false} SlotsInv(w: World, d: Desired, es: seq<Event>, start: Time)
    requires Start(w) && Timely(start, w, d, es)
    ensures OrderInv(Run(w, d, es), LastTick(start, es), Slots(w, d, es))
  {
    if es != [] {
      var before, e := es[..|es| - 1], es[|es| - 1];
      var v := Run(w, d, before);
      SlotsInv(w, d, before, start);
      hide OrderInv, Advance, Made;
      if e.TickPlan? {
        if v.holder.Deciding? {
          TickPlanSlots(v, d, e.choice, LastTick(start, before), Slots(w, d, before));
        } else {
          IdleTickPlan(v, d, e.choice);
        }
      } else {
        OtherSlots(v, d, e, LastTick(start, before), Slots(w, d, before));
      }
    }
  }

  lemma IdleTickPlan(w: World, d: Desired, c: Choice)
    requires !w.holder.Deciding?
    ensures Advance(w, d, TickPlan(c)) == w && Made(w, d, TickPlan(c)).None?
  {
  }

  /** If ticks do not go back in time, the slots of a plan are moreover made in rising order. */
  lemma {:induction false} SlotsRise(w: World, d: Desired, es: seq<Event>, start: Time, i: nat, j: nat)
    requires Start(w) && Timely(start, w, d, es) && i < j < |Slots(w, d, es)| && Slots(w, d, es)[i].plan == Slots(w, d, es)[j].plan
    ensures Slots(w, d, es)[i].scheduled < Slots(w, d, es)[j].scheduled
  {
    SlotsInv(w, d, es, start);
    hide Slots, Run;
  }
}
