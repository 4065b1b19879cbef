/**
  The owner of an admission together with the pending queue that its sessions write
  to, down to the directory: what a recovery that finds the terminal marker may
  conclude about the sessions of the process that wrote it.
 */
module OwnedQueue {
  import opened Basics
  import opened SortedNames
  import opened PendingStore
  import opened PendingSpec
  import opened PendingEffects
  import Owner = OwnerSpec

  type Session = Owner.Session

  /** `alive` until the process that owns the admission has died; a recovered queue has no owner. */
  datatype World = World(owner: Owner.World, queue: Queue.World, alive: bool)

  /** What a session appends: its start, anything in between, its end. */
  datatype Kind = Begins(reading: bool) | Works(payload: Payload) | Ends(reading: bool)

  datatype Event =
    | OwnerStep(step: Owner.Event)
    | Writes(session: Session, kind: Kind, recordId: Id, size: nat, outcome: Outcome, confirmed: bool)
    | Join
    | Marks(recordId: Id, size: nat, outcome: Outcome)
    | QueueStep(event: Queue.Event)

  predicate IsStart(p: Payload) {
    p.Audit? && p.action in {"session_start", "central_read_start"}
  }

  predicate IsEnd(p: Payload) {
    p.Audit? && p.action in {"session_end", "central_read_end"}
  }

  function PayloadOf(s: Session, kind: Kind): Payload {
    match kind
    case Begins(reading) => Audit(if reading then "central_read_start" else "session_start", s)
    case Ends(reading) => Audit(if reading then "central_read_end" else "session_end", s)
    case Works(payload) => payload
  }

  function DraftOf(id: Identity, s: Session, kind: Kind, recordId: Id, size: nat): Draft {
    Draft(PayloadOf(s, kind), Some(id.binding), recordId, size, true)
  }

  function Recording(s: Session, kind: Kind, stored: bool, confirmed: bool): Owner.Event {
    match kind
    case Begins(_) => Owner.RecordStart(s, stored, confirmed)
    case Works(_) => Owner.RecordWork(s, stored)
    case Ends(_) => Owner.RecordEnd(s, stored)
  }

  /** A session starts once it is admitted, and works and ends while it is open. */
  predicate MayAppend(w: Owner.World, s: Session, kind: Kind) {
    s in w.stages && w.stages[s] == if kind.Begins? then Owner.Admitted else Owner.Open
  }

  /** Owner steps that do not touch the queue. */
  predicate Local(e: Owner.Event) {
    e.EnterSession? || e.ReleaseSession? || e.DoneSession? || e.StopWatch? || e.WatchTurn? || e.CloseOwner?
  }

  /** Operation identifiers are fresh; only the start and the end of a session are recorded as such. */
  predicate Possible(w: World, e: Event) {
    && (e.OwnerStep? ==> Owner.Possible(w.owner, e.step))
    && (e.Writes? && e.kind.Works? ==> !IsStart(e.kind.payload) && !IsEnd(e.kind.payload) && !e.kind.payload.RuntimeCleanup?)
  }

  ghost function Advance(w: World, id: Identity, e: Event): World {
    match e
    case OwnerStep(step) => if w.alive && Local(step) then w.(owner := Owner.Advance(w.owner, step)) else w
    case Writes(s, kind, rid, size, o, confirmed) =>
      if !w.alive || !MayAppend(w.owner, s, kind) then w
      else
        var d := DraftOf(id, s, kind, rid, size);
        var stored := Appendable(w.queue.q, d) && AppendSucceeds(w.queue.q, id, d, o);
        World(Owner.Advance(w.owner, Recording(s, kind, stored, confirmed)), Queue.Advance(w.queue, id, Queue.AppendEvent(d, o)), true)
    case Join =>
      if !w.alive then w
      else
        var owner := Owner.Advance(w.owner, Owner.WatchJoin);
        w.(owner := owner, queue := if owner.owner.watch == Owner.Frozen then Queue.Advance(w.queue, id, Queue.FreezeEvent) else w.queue)
    case Marks(rid, size, o) =>
      if !w.alive || !Finishable(w.queue.q) then w
      else
        var stored := AppendSucceeds(w.queue.q.(finished := true), id, CleanupDraft(rid, size), o);
        World(Owner.Advance(w.owner, Owner.Finish(stored)), Queue.Advance(w.queue, id, Queue.FinishEvent(rid, size, o)), true)
    case QueueStep(event) =>
      if !Outer(event) then w
      else
        var queue := Queue.Advance(w.queue, id, event);
        w.(queue := queue, alive := w.alive && queue.up)
  }

  function Start(id: Identity): World {
    World(Owner.Start(), Queue.Created(id), true)
  }

  ghost function Run(id: Identity, es: seq<Event>): World {
    if es == [] then Start(id) else Advance(Run(id, es[..|es| - 1]), id, es[|es| - 1])
  }

  ghost predicate PossibleRun(id: Identity, es: seq<Event>) {
    es == [] || (PossibleRun(id, es[..|es| - 1]) && Possible(Run(id, es[..|es| - 1]), es[|es| - 1]))
  }

  // ----- where the records come from -----

  predicate Allowed(o: Owner.World, p: Payload) {
    && (p.RuntimeCleanup? ==> o.finished)
    && (IsStart(p) ==> p.session in o.seen)
    && (IsEnd(p) ==> p.session in o.ended)
  }

  /** Every record that was appended, and one whose append failed, is one that the owner wrote as it says. */
  predicate Sourced(o: Owner.World, accepted: seq<Wire>, tail: Option<Wire>) {
    && (forall i :: 0 <= i < |accepted| ==> Allowed(o, accepted[i].payload))
    && (tail.Some? ==> Allowed(o, tail.value.payload))
  }

  predicate Grows(o: Owner.World, p: Owner.World) {
    (o.finished ==> p.finished) && o.seen <= p.seen && o.ended <= p.ended
  }

  lemma OwnerGrows(o: Owner.World, e: Owner.Event)
    ensures Grows(o, Owner.Advance(o, e))
  {
  }

  lemma SourcedGrows(o: Owner.World, p: Owner.World, accepted: seq<Wire>, tail: Option<Wire>)
    requires Sourced(o, accepted, tail) && Grows(o, p)
    ensures Sourced(p, accepted, tail)
  {
  }

  lemma SourcedMore(o: Owner.World, w: Queue.World, v: Queue.World, p: Payload, stored: bool)
    requires Sourced(o, w.accepted, w.tail) && Extends(w, v, p, stored) && Allowed(o, p)
    ensures Sourced(o, v.accepted, v.tail)
  {
    hide Allowed;
    forall i | 0 <= i < |v.accepted| ensures Allowed(o, v.accepted[i].payload) {
      if i < |w.accepted| { assert v.accepted[i] == v.accepted[..|w.accepted|][i]; }
    }
  }

  // ----- what every run keeps -----

  predicate Matches(e: Owner.Entry, p: Payload) {
    match e
    case Started(s) => IsStart(p) && p.session == s
    case Ended(s) => IsEnd(p) && p.session == s
    case Worked(_) => !IsStart(p) && !IsEnd(p) && !p.RuntimeCleanup?
    case Marker => p.RuntimeCleanup?
  }

  /** The owner's log is what the queue reported as appended, entry by entry. */
  predicate Recorded(log: seq<Owner.Entry>, accepted: seq<Wire>) {
    |log| == |accepted| && forall i :: 0 <= i < |log| ==> Matches(log[i], accepted[i].payload)
  }

  predicate Together(w: World) {
    w.alive ==> w.queue.up && (w.queue.q.frozen <==> w.owner.owner.watch == Owner.Frozen) && (w.queue.q.finished <==> w.owner.finished)
  }

  ghost predicate Inv(w: World, id: Identity) {
    && Owner.Inv(w.owner) && Queue.Inv(w.queue, id) && Together(w)
    && Recorded(w.owner.log, w.queue.accepted) && Sourced(w.owner, w.queue.accepted, w.queue.tail)
  }

  lemma StartInv(id: Identity)
    requires id.Valid()
    ensures Inv(Start(id), id)
  {
    hide Queue.Inv;
    Queue.CreatedHolds(id);
  }

  function EntryOf(s: Session, kind: Kind): Owner.Entry {
    match kind
    case Begins(_) => Owner.Started(s)
    case Works(_) => Owner.Worked(s)
    case Ends(_) => Owner.Ended(s)
  }

  /** The owner's side of an append. */
  lemma OwnerAppends(o: Owner.World, s: Session, kind: Kind, stored: bool, confirmed: bool)
    requires Owner.Inv(o) && MayAppend(o, s, kind)
    ensures var p := Owner.Advance(o, Recording(s, kind, stored, confirmed));
            && p.log == (if stored then o.log + [EntryOf(s, kind)] else o.log) && p.owner == o.owner && p.finished == o.finished
            && s in p.seen && (kind.Ends? ==> s in p.ended)
  {
    hide Owner.Audited, Owner.Logged;
  }

  lemma RecordedMore(log: seq<Owner.Entry>, accepted: seq<Wire>, entry: Owner.Entry, more: seq<Wire>)
    requires Recorded(log, accepted) && |more| == |accepted| + 1 && more[..|accepted|] == accepted && Matches(entry, more[|accepted|].payload)
    ensures Recorded(log + [entry], more)
  {
    forall i | 0 <= i < |log + [entry]| ensures Matches((log + [entry])[i], more[i].payload) {
      if i < |log| { assert more[i] == more[..|accepted|][i]; }
    }
  }

  lemma AppendInv(w: World, id: Identity, e: Event)
    requires Inv(w, id) && id.Valid() && Possible(w, e) && e.Writes? && w.alive && MayAppend(w.owner, e.session, e.kind)
    ensures Inv(Advance(w, id, e), id)
  {
    hide Queue.Inv, Queue.Advance, Owner.Inv, Owner.Advance, Sourced, Matches, Recorded, Accepts, AppendSucceeds;
    var d := DraftOf(id, e.session, e.kind, e.recordId, e.size);
    var stored := Appendable(w.queue.q, d) && AppendSucceeds(w.queue.q, id, d, e.outcome);
    var step := Recording(e.session, e.kind, stored, e.confirmed);
    var v := Advance(w, id, e);
    OwnerAppends(w.owner, e.session, e.kind, stored, e.confirmed);
    Owner.StepInv(w.owner, step);
    QueueAppends(w.queue, id, d, e.outcome);
    Queue.StepInv(w.queue, id, Queue.AppendEvent(d, e.outcome));
    EntryMatches(e.session, e.kind);
    if stored { RecordedMore(w.owner.log, w.queue.accepted, EntryOf(e.session, e.kind), v.queue.accepted); }
    OwnerGrows(w.owner, step);
    SourcedGrows(w.owner, v.owner, w.queue.accepted, w.queue.tail);
    SourcedMore(v.owner, w.queue, v.queue, d.payload, stored);
  }

  lemma EntryMatches(s: Session, kind: Kind)
    requires kind.Works? ==> !IsStart(kind.payload) && !IsEnd(kind.payload) && !kind.payload.RuntimeCleanup?
    ensures Matches(EntryOf(s, kind), PayloadOf(s, kind))
    ensures forall o: Owner.World :: s in o.seen && (kind.Ends? ==> s in o.ended) ==> Allowed(o, PayloadOf(s, kind))
  {
  }

  lemma FinishInv(w: World, id: Identity, e: Event)
    requires Inv(w, id) && id.Valid() && e.Marks? && w.alive && Finishable(w.queue.q)
    ensures Inv(Advance(w, id, e), id)
  {
    hide Queue.Inv, Queue.Advance, Owner.Inv, Sourced, Recorded, Accepts, AppendSucceeds;
    var stored := AppendSucceeds(w.queue.q.(finished := true), id, CleanupDraft(e.recordId, e.size), e.outcome);
    var v := Advance(w, id, e);
    Owner.StepInv(w.owner, Owner.Finish(stored));
    QueueFinishes(w.queue, id, e.recordId, e.size, e.outcome);
    Queue.StepInv(w.queue, id, Queue.FinishEvent(e.recordId, e.size, e.outcome));
    if stored { RecordedMore(w.owner.log, w.queue.accepted, Owner.Marker, v.queue.accepted); }
    OwnerGrows(w.owner, Owner.Finish(stored));
    SourcedGrows(w.owner, v.owner, w.queue.accepted, w.queue.tail);
    SourcedMore(v.owner, w.queue, v.queue, RuntimeCleanup, stored);
  }

  /** Steps that write nothing. */
  lemma OwnerStepInv(w: World, id: Identity, e: Event)
    requires Inv(w, id) && id.Valid() && Possible(w, e) && (e.OwnerStep? || e.Join?)
    ensures Inv(Advance(w, id, e), id)
  {
    hide Queue.Inv, Queue.Advance, Owner.Inv, Sourced, Recorded;
    var step := if e.Join? then Owner.WatchJoin else e.step;
    var v := Advance(w, id, e);
    if w.alive && (e.Join? || Local(step)) {
      Owner.StepInv(w.owner, step);
      OwnerGrows(w.owner, step);
      OwnerLocal(w.owner, step);
      SourcedGrows(w.owner, v.owner, w.queue.accepted, w.queue.tail);
      Queue.StepInv(w.queue, id, Queue.FreezeEvent);
      QueueFreezes(w.queue, id);
    }
  }

  lemma OwnerLocal(o: Owner.World, e: Owner.Event)
    requires Local(e) || e.WatchJoin?
    ensures var p := Owner.Advance(o, e);
            p.log == o.log && p.finished == o.finished && (o.owner.watch == Owner.Frozen ==> p.owner.watch == Owner.Frozen) &&
            (Local(e) ==> (p.owner.watch == Owner.Frozen ==> o.owner.watch == Owner.Frozen))
  {
  }

  lemma QueueStepInv(w: World, id: Identity, e: Event)
    requires Inv(w, id) && id.Valid() && e.QueueStep?
    ensures Inv(Advance(w, id, e), id)
  {
    hide Queue.Inv, Queue.Advance, Owner.Inv, Sourced, Recorded;
    if Outer(e.event) {
      Queue.StepInv(w.queue, id, e.event);
      OuterQueue(w.queue, id, e.event);
    }
  }

  lemma {:induction false} RunInv(id: Identity, es: seq<Event>)
    requires id.Valid() && PossibleRun(id, es)
    ensures Inv(Run(id, es), id)
  {
    if es == [] {
      StartInv(id);
    } else {
      var w, e := Run(id, es[..|es| - 1]), es[|es| - 1];
      RunInv(id, es[..|es| - 1]);
      StepInv(w, id, e);
    }
  }

  lemma StepInv(w: World, id: Identity, e: Event)
    requires Inv(w, id) && id.Valid() && Possible(w, e)
    ensures Inv(Advance(w, id, e), id)
  {
    hide Inv, Queue.Advance, Owner.Advance;
    match e
    case OwnerStep(_) => OwnerStepInv(w, id, e);
    case Join => OwnerStepInv(w, id, e);
    case Writes(s, kind, _, _, _, _) => if w.alive && MayAppend(w.owner, s, kind) { AppendInv(w, id, e); }
    case Marks(_, _, _) => if w.alive && Finishable(w.queue.q) { FinishInv(w, id, e); }
    case QueueStep(_) => QueueStepInv(w, id, e);
  }

  // ----- what a recovered directory says -----

  /** The marker at i closes the directory: no session is left, all that began have ended, and their ends come before it. */
  predicate Closes(o: Owner.World, log: seq<Wire>, i: nat) {
    && i == |log| - 1 && o.finished && o.stages == map[] && o.begun <= o.ended
    && forall j :: 0 <= j < |o.log| && o.log[j].Ended? ==> j < i && IsEnd(log[j].payload) && log[j].payload.session == o.log[j].session
  }

  /** What the recovered log says of the owner. */
  predicate Speaks(o: Owner.World, log: seq<Wire>) {
    forall i :: 0 <= i < |log| ==> Allowed(o, log[i].payload) && (log[i].payload.RuntimeCleanup? ==> Closes(o, log, i))
  }

  /** The entries that the owner logged, read off the recovered log. */
  lemma LoggedEnds(o: Owner.World, accepted: seq<Wire>, log: seq<Wire>, i: nat)
    requires Owner.Logged(o) && Recorded(o.log, accepted) && i == |log| - 1 && log[i].payload.RuntimeCleanup?
    requires |log| <= |accepted| + 1 && forall j :: 0 <= j < |log| && j < |accepted| ==> log[j] == accepted[j]
    ensures forall j :: 0 <= j < |o.log| && o.log[j].Ended? ==> j < i && IsEnd(log[j].payload) && log[j].payload.session == o.log[j].session
  {
    if i < |accepted| {
      assert Matches(o.log[i], accepted[i].payload);
      assert o.log[i] == Owner.Marker;
    }
    forall j | 0 <= j < |o.log| && o.log[j].Ended?
      ensures j < i && IsEnd(log[j].payload) && log[j].payload.session == o.log[j].session
    {
      assert Matches(o.log[j], accepted[j].payload);
    }
  }

  lemma FinishedOwner(o: Owner.World)
    requires Owner.Inv(o) && o.finished
    ensures o.stages == map[] && o.begun <= o.ended && Owner.Logged(o)
  {
  }

  lemma MarkerCloses(o: Owner.World, accepted: seq<Wire>, log: seq<Wire>, i: nat)
    requires Owner.Inv(o) && Recorded(o.log, accepted) && i < |log| && log[i].payload.RuntimeCleanup? && Allowed(o, log[i].payload)
    requires Queue.MarkerLast(log) && |log| <= |accepted| + 1 && forall j :: 0 <= j < |log| && j < |accepted| ==> log[j] == accepted[j]
    ensures Closes(o, log, i)
  {
    assert o.finished && i == |log| - 1;
    hide Owner.Inv, Owner.Logged, Recorded, Allowed, Queue.MarkerLast, IsEnd;
    FinishedOwner(o);
    LoggedEnds(o, accepted, log, i);
  }

  /**
    Whatever crashed, and whenever: if a recovery of the directory succeeds, each record
    of its log says what the owner did, and a terminal marker is the last record,
    written when no session was left, with the end of every session before it.
   */
  lemma {:induction false} MarkerInDirectory(id: Identity, es: seq<Event>, names: seq<string>, o: Outcome)
    requires id.Valid() && PossibleRun(id, es)
    requires var q := Run(id, es).queue; !q.up && IsDirectory(names, q.disk) && RecoverSucceeds(names, q.disk, id, o)
    ensures var w := Run(id, es); var q := Checked(Sort(names), View(w.queue.disk), id).value.0;
            exists log: seq<Wire>, a: nat :: Queue.Exactly(q, View(w.queue.disk), w.queue, id, log, a) && Speaks(w.owner, log)
  {
    hide Queue.Inv, Queue.Exactly, Owner.Inv, Run, Checked, View, IsDirectory, Closes, Allowed, Sort, Recorded, Queue.MarkerLast;
    var w := Run(id, es);
    RunInv(id, es);
    Queue.RecoversExactly(w.queue, id, names, o);
    var q := Checked(Sort(names), View(w.queue.disk), id).value.0;
    var log: seq<Wire>, a: nat :| Queue.Exactly(q, View(w.queue.disk), w.queue, id, log, a);
    ExactLog(q, View(w.queue.disk), w.queue, id, log, a);
    forall i | 0 <= i < |log| ensures Allowed(w.owner, log[i].payload) && (log[i].payload.RuntimeCleanup? ==> Closes(w.owner, log, i)) {
      if i < |w.queue.accepted| { assert log[i] == w.queue.accepted[i]; } else { assert w.queue.tail == Some(log[i]); }
      if log[i].payload.RuntimeCleanup? { MarkerCloses(w.owner, w.queue.accepted, log, i); }
    }
    assert Speaks(w.owner, log);
  }
}
