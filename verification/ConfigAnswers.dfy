/** What is active and what is answered, from the snapshots alone. */
module ConfigAnswers {
  import opened Basics
  import opened Operations
  import opened ConfigSpec

  /** The last of the previous plans under the identifier has this revision, hash and schedule. */
  ghost predicate Keeps(previous: seq<Plan>, p: Plan) {
    exists j :: LastAt(previous, |previous|, j) && previous[j].id == p.id &&
                previous[j].revision == p.revision && previous[j].hash == p.hash && previous[j].clock == p.clock
  }

  lemma {:induction false} NamedIff(plans: seq<Plan>, id: Id, p: Plan)
    ensures PlanNamed(plans, id) == Some(p) <==> exists j :: LastAt(plans, |plans|, j) && plans[j].id == id && plans[j] == p
  {
    if plans == [] {
    } else if plans[|plans| - 1].id == id {
      assert LastAt(plans, |plans|, |plans| - 1);
      assert forall j :: LastAt(plans, |plans|, j) && plans[j].id == id ==> j == |plans| - 1;
    } else {
      var init := plans[..|plans| - 1];
      NamedIff(init, id, p);
      forall j ensures LastAt(plans, |plans|, j) && plans[j].id == id <==> LastAt(init, |init|, j) && init[j].id == id {
        assert 0 <= j < |init| ==> init[j] == plans[j];
        assert forall i :: 0 <= i < |init| ==> init[i] == plans[i];
      }
      assert forall j :: LastAt(init, |init|, j) ==> init[j] == plans[j];
      hide LastAt;
    }
  }

  lemma KeepsIff(previous: seq<Plan>, p: Plan)
    ensures SameSchedule(PlanNamed(previous, p.id), p) <==> Keeps(previous, p)
  {
    var was := PlanNamed(previous, p.id);
    if was.Some? { NamedIff(previous, p.id, was.value); }
    if j :| LastAt(previous, |previous|, j) && previous[j].id == p.id && previous[j].revision == p.revision && previous[j].hash == p.hash && previous[j].clock == p.clock {
      NamedIff(previous, p.id, previous[j]);
    }
    hide PlanNamed;
    assert forall i, j :: LastAt(previous, |previous|, i) && LastAt(previous, |previous|, j) && previous[i].id == previous[j].id ==> i == j;
  }

  /**
    A reconciliation of distinct plans keeps the runtime of each whose last predecessor
    under its identifier had the same revision, hash and schedule; any other gets the
    clock's next run and keeps the rest.
   */
  lemma NextRunIff(rts: map<Id, Runtime>, previous: seq<Plan>, plans: seq<Plan>, clock: Clock, i: nat)
    requires DistinctPlans(plans) && Reconciled(rts, previous, plans, clock).Some? && i < |plans|
    ensures var p := plans[i]; var out := Reconciled(rts, previous, plans, clock).value;
            && p.id in out
            && out[p.id].nextRun == (if !Keeps(previous, p) && clock(p).Some? then clock(p).value else if p.id in rts then rts[p.id].nextRun else None)
            && out[p.id].lastScheduled == (if p.id in rts then rts[p.id].lastScheduled else None)
            && out[p.id].lastOperation == (if p.id in rts then rts[p.id].lastOperation else None)
            && (Keeps(previous, p) || clock(p).Some?)
  {
    ReconcileExact(rts, previous, plans, clock);
    PutSome(rts, previous, plans, |plans|, clock);
    KeepsIff(previous, plans[i]);
    hide Put, PlanNamed, SameSchedule, Keeps, DistinctPlans, Matches;
  }

  ghost predicate Readable(previous: seq<Plan>, p: Plan, clock: Clock) {
    clock(p).Some? || Keeps(previous, p)
  }

  /** A reconciliation fails exactly when a new or changed schedule does not parse. */
  lemma {:induction false} PutSome(rts: map<Id, Runtime>, previous: seq<Plan>, plans: seq<Plan>, n: nat, clock: Clock)
    requires n <= |plans|
    ensures Put(rts, previous, plans, n, clock).Some? <==> forall i :: 0 <= i < n ==> Readable(previous, plans[i], clock)
  {
    hide PlanNamed, SameSchedule, Keeps;
    if n > 0 {
      KeepsIff(previous, plans[n - 1]);
      PutSome(rts, previous, plans, n - 1, clock);
    }
  }

  predicate Offers(es: seq<Event>, k: int) {
    0 <= k < |es| && es[k].Snapshotted? && es[k].snapshot.Valid?
  }

  /** Both transactions of the snapshot committed, it is newer than every one activated before it, and its schedules parse. */
  ghost predicate Activated(es: seq<Event>, k: int)
    decreases k, 1
  {
    && Offers(es, k) && es[k].done >= 2
    && (forall j :: 0 <= j < k && Activated(es, j) ==> Offers(es, j) && es[j].snapshot.state.revision < es[k].snapshot.state.revision)
    && forall i :: 0 <= i < |es[k].snapshot.state.plans| ==> Readable(PlansBefore(es, k), es[k].snapshot.state.plans[i], es[k].clock)
  }

  /** The plans of the last snapshot that was activated among the first n events. */
  ghost function PlansBefore(es: seq<Event>, n: nat): seq<Plan>
    requires n <= |es|
    decreases n, 0
  {
    if n == 0 then [] else if Activated(es, n - 1) then es[n - 1].snapshot.state.plans else PlansBefore(es, n - 1)
  }

  /** Snapshot j is the last one activated among the first n events. */
  ghost predicate Latest(es: seq<Event>, n: nat, j: int) {
    0 <= j < n && Activated(es, j) && forall i :: j < i < n ==> !Activated(es, i)
  }

  /** The active state is that of the latest activated snapshot, which is the newest of them. */
  ghost predicate ActiveIs(es: seq<Event>, n: nat, active: Option<DesiredState>)
    requires n <= |es|
  {
    && PlansBefore(es, n) == PlansOf(active)
    && (active.None? ==> forall j :: 0 <= j < n ==> !Activated(es, j))
    && (active.Some? ==> exists j :: Latest(es, n, j) && es[j].snapshot.state == active.value)
    && forall j :: 0 <= j < n && Activated(es, j) ==> active.Some? && es[j].snapshot.state.revision <= active.value.revision
  }

  lemma RunAt(es: seq<Event>, n: nat)
    requires n < |es|
    ensures Run(es[..n + 1]) == Advance(Run(es[..n]), es[n])
  {
    assert es[..n + 1][..n] == es[..n];
  }

  /** Whether the next snapshot is activated, decided on the store. */
  lemma ActivatesNext(es: seq<Event>, n: nat, s: Store)
    requires n < |es| && ActiveIs(es, n, s.active)
    ensures Activated(es, n) <==>
              && Offers(es, n) && es[n].done >= 2 && Judge(s.active, es[n].snapshot.state) == Activate
              && Reconciled(s.runtimes, PlansOf(s.active), es[n].snapshot.state.plans, es[n].clock).Some?
  {
    if Offers(es, n) {
      var next := es[n].snapshot.state;
      PutSome(s.runtimes, PlansOf(s.active), next.plans, |next.plans|, es[n].clock);
      hide Put, Readable, PlansBefore;
      if s.active.Some? {
        var j :| Latest(es, n, j) && es[j].snapshot.state == s.active.value;
        assert Activated(es, j);
      }
    }
  }

  lemma ActiveNext(es: seq<Event>, n: nat, s: Store)
    requires n < |es| && ActiveIs(es, n, s.active)
    ensures ActiveIs(es, n + 1, Advance(s, es[n]).active)
  {
    ActivatesNext(es, n, s);
    var v := Advance(s, es[n]);
    assert if Activated(es, n) then v.active == Some(es[n].snapshot.state) else v.active == s.active by {
      hide Reconciled, Sched.Decide, Sched.Enact, ActiveIs, Activated;
    }
    hide Advance, Reconciled, Judge;
    if Activated(es, n) {
      assert Latest(es, n + 1, n);
    } else if s.active.Some? {
      var j :| Latest(es, n, j) && es[j].snapshot.state == s.active.value;
      assert Latest(es, n + 1, j);
    }
  }

  lemma {:induction false} ActiveAt(es: seq<Event>, n: nat)
    requires n <= |es|
    ensures ActiveIs(es, n, Run(es[..n]).active)
  {
    if n > 0 {
      ActiveAt(es, n - 1);
      hide ActiveIs, Advance;
      RunAt(es, n - 1);
      ActiveNext(es, n - 1, Run(es[..n - 1]));
    } else {
      assert es[..0] == [];
    }
  }

  /** Over every run the active state is that of the last snapshot activated, and none is active before the first. */
  lemma ActiveIff(es: seq<Event>, state: DesiredState)
    ensures Run(es).active == Some(state) <==> exists j :: Latest(es, |es|, j) && es[j].snapshot.state == state
  {
    ActiveAt(es, |es|);
    assert es[..|es|] == es;
    hide Run, Activated, PlansBefore;
  }

  /** A snapshot activated before event k has this revision or a later one; with this revision, it has this hash or another. */
  ghost predicate NewerBefore(es: seq<Event>, k: nat, revision: int) {
    exists j :: 0 <= j < k && Activated(es, j) && es[j].snapshot.state.revision > revision
  }

  ghost predicate SameBefore(es: seq<Event>, k: nat, revision: int, same: bool, hash: string) {
    exists j :: 0 <= j < k && Activated(es, j) && es[j].snapshot.state.revision == revision && (es[j].snapshot.state.hash == hash <==> same)
  }

  /** The answer that event k leaves to be sent, if any. */
  ghost function Answer(es: seq<Event>, k: nat): Option<ConfigResult>
    requires k < |es|
  {
    if !es[k].Snapshotted? || es[k].done == 0 then None
    else if es[k].snapshot.Invalid? then
      if es[k].snapshot.revision >= 1 then Some(Rejected(es[k].snapshot.revision, es[k].snapshot.code)) else None
    else
      var s := es[k].snapshot.state;
      if NewerBefore(es, k, s.revision) then Some(Rejected(s.revision, "REVISION_ROLLBACK"))
      else if SameBefore(es, k, s.revision, false, s.hash) then Some(Rejected(s.revision, "REVISION_CONFLICT"))
      else if SameBefore(es, k, s.revision, true, s.hash) || Activated(es, k) then Some(Accepted(s.revision, s.hash))
      else None
  }

  /** Among the first n events, the answer of event k is the last one, and was not sent since. */
  ghost predicate Stands(es: seq<Event>, n: nat, k: int)
    requires n <= |es|
  {
    && 0 <= k < n && Answer(es, k).Some?
    && forall i :: k < i < n ==> Answer(es, i).None? && !(es[i].ResultSent? && es[i].revision == Answer(es, k).value.revision)
  }

  lemma JudgedNext(es: seq<Event>, n: nat, active: Option<DesiredState>)
    requires n < |es| && Offers(es, n) && ActiveIs(es, n, active)
    ensures var s := es[n].snapshot.state; var verdict := Judge(active, s);
            && (NewerBefore(es, n, s.revision) <==> verdict == Refuse("REVISION_ROLLBACK"))
            && (!NewerBefore(es, n, s.revision) ==> (SameBefore(es, n, s.revision, false, s.hash) <==> verdict == Refuse("REVISION_CONFLICT")))
            && (!NewerBefore(es, n, s.revision) && !SameBefore(es, n, s.revision, false, s.hash) ==>
                  (SameBefore(es, n, s.revision, true, s.hash) <==> verdict == Confirm))
  {
    hide PlansBefore;
    if active.Some? {
      var k :| Latest(es, n, k) && es[k].snapshot.state == active.value;
      assert Activated(es, k);
      assert forall j :: 0 <= j < n && Activated(es, j) && es[j].snapshot.state.revision == active.value.revision ==> j == k;
      hide Activated;
    }
  }

  lemma AnswerNext(es: seq<Event>, n: nat, s: Store)
    requires n < |es| && ActiveIs(es, n, s.active)
    ensures var a := Answer(es, n); var v := Advance(s, es[n]).result;
            if a.Some? then v == a
            else if es[n].ResultSent? && s.result.Some? && s.result.value.revision == es[n].revision then v == None
            else v == s.result
  {
    ActivatesNext(es, n, s);
    if Offers(es, n) { JudgedNext(es, n, s.active); }
    hide ActiveIs, Activated, NewerBefore, SameBefore, Reconciled, Sched.Decide, Sched.Enact;
  }

  /** One more event: an answer stands on unless another one, or its sending, comes. */
  lemma StandsNext(es: seq<Event>, n: nat, k: int)
    requires n < |es| && 0 <= k < n
    ensures Stands(es, n + 1, k) <==> Stands(es, n, k) && Answer(es, n).None? && !(es[n].ResultSent? && es[n].revision == Answer(es, k).value.revision)
  {
    hide Answer;
  }

  /** At most one answer stands. */
  lemma OneStands(es: seq<Event>, n: nat, i: int, k: int)
    requires n <= |es| && Stands(es, n, i) && Stands(es, n, k)
    ensures i == k
  {
    hide Answer;
  }

  ghost predicate ResultIs(es: seq<Event>, n: nat, r: Option<ConfigResult>)
    requires n <= |es|
  {
    if r.Some? then exists k :: Stands(es, n, k) && Answer(es, k) == r else forall k :: !Stands(es, n, k)
  }

  lemma ResultNext(es: seq<Event>, n: nat, s: Store)
    requires n < |es| && ActiveIs(es, n, s.active) && ResultIs(es, n, s.result)
    ensures ResultIs(es, n + 1, Advance(s, es[n]).result)
  {
    AnswerNext(es, n, s);
    hide ActiveIs, Advance, Answer;
    if Answer(es, n).Some? {
      assert Stands(es, n + 1, n);
    } else {
      assert !Stands(es, n + 1, n);
      forall k | 0 <= k < n ensures Stands(es, n + 1, k) <==> Stands(es, n, k) && !(es[n].ResultSent? && es[n].revision == Answer(es, k).value.revision) {
        StandsNext(es, n, k);
      }
      if s.result.Some? {
        var k :| Stands(es, n, k) && Answer(es, k) == s.result;
        forall i | Stands(es, n, i) ensures i == k { OneStands(es, n, i, k); }
      }
    }
  }

  lemma {:induction false} ResultAt(es: seq<Event>, n: nat)
    requires n <= |es|
    ensures ResultIs(es, n, Run(es[..n]).result)
  {
    hide Advance, ActiveIs, Answer;
    if n == 0 {
      assert es[..0] == [];
    } else {
      ResultAt(es, n - 1);
      ActiveAt(es, n - 1);
      RunAt(es, n - 1);
      hide ResultIs, Run;
      ResultNext(es, n - 1, Run(es[..n - 1]));
    }
  }

  /**
    Over every run of snapshots, crashes, sends and scheduler steps, the stored result is
    the answer to the last snapshot that has one, until it is sent: older than an activated
    one is a rollback, an activated revision under another hash a conflict, an activated
    one or one being activated is accepted, and an invalid one is refused with its code.
   */
  lemma ResultIff(es: seq<Event>, r: ConfigResult)
    ensures Run(es).result == Some(r) <==> exists k :: Stands(es, |es|, k) && Answer(es, k) == Some(r)
  {
    ResultAt(es, |es|);
    assert es[..|es|] == es;
    hide Run, Answer;
    if i :| Stands(es, |es|, i) && Answer(es, i) == Some(r) {
      var k :| Stands(es, |es|, k) && Answer(es, k) == Run(es).result;
      OneStands(es, |es|, i, k);
    }
  }
}
