/**
  The refresh recorder together with the pending queue that it shares with the audit
  recorder, down to the directory: what a recovery finds of the token's history.
 */
module RefreshQueue {
  import opened Basics
  import opened SortedNames
  import opened PendingStore
  import opened PendingSpec
  import opened PendingEffects
  import opened RcloneSpec
  import opened RcloneRelations
  import Recorder = RefreshSpec

  /** `alive` until the process of the recorder has died; a recovered queue has none. */
  datatype World = World(recorder: Recorder.Recorder, queue: Queue.World, alive: bool)

  datatype Event =
    | Refreshed(next: Option<Config>, ready: bool, valid: bool, recordId: Id, size: nat, outcome: Outcome)
    | Audited(action: string, session: Id, recordId: Id, size: nat, outcome: Outcome)
    | CloseRecorder
    | Freezes
    | Marks(recordId: Id, size: nat, outcome: Outcome)
    | QueueStep(event: Queue.Event)

  function DraftOf(id: Identity, p: Payload, recordId: Id, size: nat): Draft {
    Draft(p, Some(id.binding), recordId, size, true)
  }

  /** What the recorder learns of its append. */
  function Learned(q: State, id: Identity, d: Draft, o: Outcome): Recorder.Append {
    if !Appendable(q, d) || Accepts(q, id, d).None? || o.done > 5 then Recorder.Refused
    else if o.ok && o.done == 5 then Recorder.Stored
    else Recorder.Uncertain(o.done >= 4)
  }

  /** The checks before the append have passed. */
  ghost predicate Reaches(r: Recorder.Recorder, next: Option<Config>, ready: bool, valid: bool) {
    !r.closed && ready && next.Some? && Recorder.Changes(r, next.value) && valid
  }

  ghost function Advance(w: World, id: Identity, e: Event): World {
    match e
    case Refreshed(next, ready, valid, rid, size, o) =>
      if !w.alive || !Reaches(w.recorder, next, ready, valid) then w
      else
        var d := DraftOf(id, Refresh(w.recorder.revision, Print(next.value)), rid, size);
        World(Recorder.Persist(w.recorder, next, ready, valid, Learned(w.queue.q, id, d, o)),
              Queue.Advance(w.queue, id, Queue.AppendEvent(d, o)), true)
    case Audited(action, session, rid, size, o) =>
      if !w.alive then w
      else w.(queue := Queue.Advance(w.queue, id, Queue.AppendEvent(DraftOf(id, Audit(action, session), rid, size), o)))
    case CloseRecorder => w.(recorder := Recorder.Advance(w.recorder, Recorder.Close))
    case Freezes => if w.alive then w.(queue := Queue.Advance(w.queue, id, Queue.FreezeEvent)) else w
    case Marks(rid, size, o) =>
      if w.alive && Finishable(w.queue.q) then w.(queue := Queue.Advance(w.queue, id, Queue.FinishEvent(rid, size, o))) else w
    case QueueStep(event) =>
      if !Outer(event) then w
      else
        var queue := Queue.Advance(w.queue, id, event);
        w.(queue := queue, alive := w.alive && queue.up)
  }

  function Start(id: Identity, registered: Config, initial: int): World {
    World(Recorder.Start(registered, initial), Queue.Created(id), true)
  }

  ghost function Run(id: Identity, registered: Config, initial: int, es: seq<Event>): World {
    if es == [] then Start(id, registered, initial)
    else Advance(Run(id, registered, initial, es[..|es| - 1]), id, es[|es| - 1])
  }

  // ----- refresh records among the others -----

  /** The refreshes of a log, in order. */
  function RefreshesOf(ws: seq<Wire>): seq<Payload> {
    if ws == [] then []
    else
      var p := ws[|ws| - 1].payload;
      RefreshesOf(ws[..|ws| - 1]) + if p.Refresh? then [p] else []
  }

  lemma RefreshesMore(ws: seq<Wire>, more: seq<Wire>)
    requires |more| == |ws| + 1 && more[..|ws|] == ws
    ensures var p := more[|ws|].payload; RefreshesOf(more) == RefreshesOf(ws) + if p.Refresh? then [p] else []
  {
  }

  /** The refresh at position i is the one after those before it. */
  lemma {:induction false} RefreshAt(ws: seq<Wire>, i: nat)
    requires i < |ws| && ws[i].payload.Refresh?
    ensures var before, all := RefreshesOf(ws[..i]), RefreshesOf(ws);
            before + [ws[i].payload] <= all
    decreases |ws|
  {
    var rest := ws[..|ws| - 1];
    if i == |ws| - 1 {
      assert ws[..i] == rest;
    } else {
      assert rest[..i] == ws[..i];
      RefreshAt(rest, i);
    }
  }

  ghost function PayloadOf(x: Recorder.Refresh): Payload {
    Refresh(x.expected, Print(x.config))
  }

  // ----- what every run keeps -----

  /** The queue has the recorder's refreshes in order; one that it may lack is the last, and the recorder has stopped. */
  ghost predicate Linked(r: Recorder.Recorder, accepted: seq<Wire>, tail: Option<Wire>) {
    var ps := RefreshesOf(accepted);
    && (|r.log| == |ps| || (|r.log| == |ps| + 1 && r.failed))
    && (forall k :: 0 <= k < |ps| ==> ps[k] == PayloadOf(r.log[k]))
    && (tail.Some? && tail.value.payload.Refresh? ==> |r.log| == |ps| + 1 && tail.value.payload == PayloadOf(r.log[|ps|]))
  }

  /** A live recorder that has stopped, and a tail, mean a latched queue. */
  predicate Latched(w: World) {
    w.alive ==> w.queue.up && (w.recorder.failed || w.queue.tail.Some? ==> w.queue.q.failed)
  }

  ghost predicate Inv(w: World, id: Identity, registered: Config, initial: int) {
    && Recorder.Inv(registered, initial, w.recorder) && Queue.Inv(w.queue, id)
    && Latched(w) && Linked(w.recorder, w.queue.accepted, w.queue.tail)
  }

  lemma StartInv(id: Identity, registered: Config, initial: int)
    requires id.Valid()
    ensures Inv(Start(id, registered, initial), id, registered, initial)
  {
    hide Queue.Inv, Recorder.Inv;
    Queue.CreatedHolds(id);
    Recorder.RefreshesChain(registered, initial, []);
  }

  /** A record that is no refresh leaves the link alone. */
  lemma OthersLinked(r: Recorder.Recorder, w: Queue.World, v: Queue.World, p: Payload, stored: bool)
    requires Linked(r, w.accepted, w.tail) && Extends(w, v, p, stored) && !p.Refresh?
    ensures Linked(r, v.accepted, v.tail)
  {
    hide PayloadOf;
    if stored { RefreshesMore(w.accepted, v.accepted); }
  }

  /** The two sides of a refresh that reaches the queue. */
  lemma RefreshLinked(w: World, id: Identity, e: Event)
    requires Latched(w) && Linked(w.recorder, w.queue.accepted, w.queue.tail)
    requires e.Refreshed? && w.alive && Reaches(w.recorder, e.next, e.ready, e.valid)
    ensures var v := Advance(w, id, e); Latched(v) && Linked(v.recorder, v.queue.accepted, v.queue.tail)
  {
    var p := Refresh(w.recorder.revision, Print(e.next.value));
    var d := DraftOf(id, p, e.recordId, e.size);
    var v := Advance(w, id, e);
    RefreshQueued(w.queue, id, d, e.outcome);
    assert p == PayloadOf(Recorder.Refresh(w.recorder.revision, e.next.value));
    hide Queue.Advance, Learned, PayloadOf, Appendable, Accepts, Recorder.Changes, Print, RefreshesOf;
    if Learned(w.queue.q, id, d, e.outcome) == Recorder.Stored { RefreshesMore(w.queue.accepted, v.queue.accepted); }
  }

  lemma RefreshQueued(w: Queue.World, id: Identity, d: Draft, o: Outcome)
    requires w.up && (w.tail.Some? ==> w.q.failed)
    ensures var v := Queue.Advance(w, id, Queue.AppendEvent(d, o)); var a := Learned(w.q, id, d, o);
            && v.up && (w.q.failed ==> a == Recorder.Refused && v.q.failed)
            && (a == Recorder.Stored ==> Extends(w, v, d.payload, true) && v.tail == None)
            && (a == Recorder.Refused ==> v.accepted == w.accepted && v.tail == w.tail)
            && (a.Uncertain? ==> v.accepted == w.accepted && v.q.failed && w.tail == None && !w.q.failed)
            && (a.Uncertain? ==> if a.visible then v.tail.Some? && v.tail.value.payload == d.payload else v.tail == None)
            && (v.tail.Some? ==> v.q.failed)
  {
    AcceptedPayload(w.q, id, d);
    hide Accepts, ApplyAll;
  }

  lemma RefreshInv(w: World, id: Identity, registered: Config, initial: int, e: Event)
    requires Inv(w, id, registered, initial) && id.Valid()
    requires e.Refreshed? && w.alive && Reaches(w.recorder, e.next, e.ready, e.valid)
    ensures Inv(Advance(w, id, e), id, registered, initial)
  {
    assert e.next.Some?;
    hide Queue.Inv, Queue.Advance, Recorder.Inv, Recorder.Persist, Latched, Linked, Learned, Reaches;
    var d := DraftOf(id, Refresh(w.recorder.revision, Print(e.next.value)), e.recordId, e.size);
    RefreshLinked(w, id, e);
    Queue.StepInv(w.queue, id, Queue.AppendEvent(d, e.outcome));
    Recorder.StepInv(registered, initial, w.recorder, Recorder.Refreshed(e.next, e.ready, e.valid, Learned(w.queue.q, id, d, e.outcome)));
  }

  lemma AuditInv(w: World, id: Identity, registered: Config, initial: int, e: Event)
    requires Inv(w, id, registered, initial) && id.Valid() && e.Audited? && w.alive
    ensures Inv(Advance(w, id, e), id, registered, initial)
  {
    hide Queue.Inv, Queue.Advance, Recorder.Inv, Linked, AppendSucceeds;
    var d := DraftOf(id, Audit(e.action, e.session), e.recordId, e.size);
    var v := Advance(w, id, e);
    QueueAppends(w.queue, id, d, e.outcome);
    Queue.StepInv(w.queue, id, Queue.AppendEvent(d, e.outcome));
    OthersLinked(w.recorder, w.queue, v.queue, d.payload, Appendable(w.queue.q, d) && AppendSucceeds(w.queue.q, id, d, e.outcome));
  }

  lemma MarkInv(w: World, id: Identity, registered: Config, initial: int, e: Event)
    requires Inv(w, id, registered, initial) && id.Valid() && e.Marks? && w.alive && Finishable(w.queue.q)
    ensures Inv(Advance(w, id, e), id, registered, initial)
  {
    hide Queue.Inv, Queue.Advance, Recorder.Inv, Linked, AppendSucceeds;
    var v := Advance(w, id, e);
    QueueFinishes(w.queue, id, e.recordId, e.size, e.outcome);
    Queue.StepInv(w.queue, id, Queue.FinishEvent(e.recordId, e.size, e.outcome));
    OthersLinked(w.recorder, w.queue, v.queue, RuntimeCleanup,
                 AppendSucceeds(w.queue.q.(finished := true), id, CleanupDraft(e.recordId, e.size), e.outcome));
  }

  lemma QueueInv(w: World, id: Identity, registered: Config, initial: int, e: Event)
    requires Inv(w, id, registered, initial) && id.Valid() && (e.QueueStep? || e.Freezes? || e.CloseRecorder?)
    ensures Inv(Advance(w, id, e), id, registered, initial)
  {
    hide Queue.Inv, Queue.Advance, Recorder.Inv;
    if e.CloseRecorder? {
      Recorder.StepInv(registered, initial, w.recorder, Recorder.Close);
    } else if e.Freezes? {
      Queue.StepInv(w.queue, id, Queue.FreezeEvent);
      QueueFreezes(w.queue, id);
    } else if Outer(e.event) {
      Queue.StepInv(w.queue, id, e.event);
      OuterQueue(w.queue, id, e.event);
    }
  }

  lemma StepInv(w: World, id: Identity, registered: Config, initial: int, e: Event)
    requires Inv(w, id, registered, initial) && id.Valid()
    ensures Inv(Advance(w, id, e), id, registered, initial)
  {
    hide Inv, Queue.Advance, Recorder.Persist, Reaches;
    match e
    case Refreshed(next, ready, valid, _, _, _) => if w.alive && Reaches(w.recorder, next, ready, valid) { RefreshInv(w, id, registered, initial, e); }
    case Audited(_, _, _, _, _) => if w.alive { AuditInv(w, id, registered, initial, e); }
    case Marks(_, _, _) => if w.alive && Finishable(w.queue.q) { MarkInv(w, id, registered, initial, e); }
    case _ => QueueInv(w, id, registered, initial, e);
  }

  lemma {:induction false} RunInv(id: Identity, registered: Config, initial: int, es: seq<Event>)
    requires id.Valid()
    ensures Inv(Run(id, registered, initial, es), id, registered, initial)
  {
    if es == [] {
      StartInv(id, registered, initial);
    } else {
      RunInv(id, registered, initial, es[..|es| - 1]);
      StepInv(Run(id, registered, initial, es[..|es| - 1]), id, registered, initial, es[|es| - 1]);
    }
  }

  // ----- what a recovered directory says -----

  /** The configuration before position i: the last refresh before it, or the registered one. */
  ghost function Before(registered: Config, log: seq<Wire>, i: nat): string
    requires i <= |log|
  {
    var ps := RefreshesOf(log[..i]);
    if ps != [] && ps[|ps| - 1].Refresh? then ps[|ps| - 1].config else Print(registered)
  }

  /** The text is that of a configuration which differs from the registered one in the token at most. */
  ghost predicate Carries(registered: Config, text: string, c: Config) {
    Print(c) == text && SameExceptToken(registered, c) && SameTarget(registered, c)
  }

  /** The refresh at i expects the revision that the refreshes before it lead to, and changes the token and nothing else. */
  ghost predicate Continues(registered: Config, initial: int, log: seq<Wire>, i: nat)
    requires i < |log| && log[i].payload.Refresh?
  {
    && log[i].payload.expected == initial + |RefreshesOf(log[..i])|
    && log[i].payload.config != Before(registered, log, i)
    && exists c :: Carries(registered, log[i].payload.config, c)
  }

  lemma BeforeIs(registered: Config, r: Recorder.Recorder, log: seq<Wire>, i: nat)
    requires i <= |log| && |RefreshesOf(log[..i])| <= |r.log|
    requires forall k :: 0 <= k < |RefreshesOf(log[..i])| ==> RefreshesOf(log[..i])[k] == PayloadOf(r.log[k])
    ensures var k := |RefreshesOf(log[..i])|;
            Before(registered, log, i) == Print(if k == 0 then registered else r.log[k - 1].config)
  {
    hide Print, RefreshesOf;
    var ps := RefreshesOf(log[..i]);
    if ps != [] { assert ps[|ps| - 1] == PayloadOf(r.log[|ps| - 1]); }
  }

  lemma RecordContinues(registered: Config, initial: int, r: Recorder.Recorder, log: seq<Wire>, i: nat)
    requires Recorder.Inv(registered, initial, r) && i < |log| && log[i].payload.Refresh?
    requires var ps := RefreshesOf(log[..i]);
             && |ps| < |r.log| && log[i].payload == PayloadOf(r.log[|ps|])
             && (forall k :: 0 <= k < |ps| ==> ps[k] == PayloadOf(r.log[k]))
    ensures Continues(registered, initial, log, i)
  {
    hide Print, SameExceptToken, SameTarget, RefreshesOf, Before;
    var k := |RefreshesOf(log[..i])|;
    var c := r.log[k].config;
    assert Recorder.LinkAt(registered, initial, r.log, k);
    BeforeIs(registered, r, log, i);
    ExceptTokenWithinTarget(registered, c);
    assert Carries(registered, log[i].payload.config, c);
    assert log[i].payload.config == Print(c) && log[i].payload.expected == initial + k;
  }

  lemma LinkedAt(r: Recorder.Recorder, accepted: seq<Wire>, tail: Option<Wire>, log: seq<Wire>, i: nat)
    requires Linked(r, accepted, tail) && i < |log| <= |accepted| + 1 && log[i].payload.Refresh?
    requires forall j :: 0 <= j < |log| && j < |accepted| ==> log[j] == accepted[j]
    requires |log| == |accepted| + 1 ==> tail == Some(log[|accepted|])
    ensures var ps := RefreshesOf(log[..i]);
            && |ps| < |r.log| && log[i].payload == PayloadOf(r.log[|ps|])
            && (forall k :: 0 <= k < |ps| ==> ps[k] == PayloadOf(r.log[k]))
  {
    hide PayloadOf;
    if i < |accepted| {
      assert log[..i] == accepted[..i];
      RefreshAt(accepted, i);
    } else {
      assert log[..i] == accepted;
    }
  }

  /**
    Whatever crashed, and whenever: if a recovery of the directory succeeds, the refresh
    records of its log form one chain from the registered configuration.  The k-th
    expects the initial revision plus k, differs from the one before it, and keeps
    everything but the token, whatever audit records lie between them.
   */
  lemma {:induction false} RefreshesInDirectory(id: Identity, registered: Config, initial: int, es: seq<Event>, names: seq<string>, o: Outcome)
    requires id.Valid()
    requires var q := Run(id, registered, initial, es).queue; !q.up && IsDirectory(names, q.disk) && RecoverSucceeds(names, q.disk, id, o)
    ensures var w := Run(id, registered, initial, es); var q := Checked(Sort(names), View(w.queue.disk), id).value.0;
            exists log: seq<Wire>, a: nat :: Queue.Exactly(q, View(w.queue.disk), w.queue, id, log, a) &&
              forall i :: 0 <= i < |log| && log[i].payload.Refresh? ==> Continues(registered, initial, log, i)
  {
    hide Queue.Inv, Queue.Exactly, Recorder.Inv, Linked, Run, Checked, View, IsDirectory, Sort, Continues, PayloadOf, RefreshesOf;
    var w := Run(id, registered, initial, es);
    RunInv(id, registered, initial, es);
    Queue.RecoversExactly(w.queue, id, names, o);
    var q := Checked(Sort(names), View(w.queue.disk), id).value.0;
    var log: seq<Wire>, a: nat :| Queue.Exactly(q, View(w.queue.disk), w.queue, id, log, a);
    ExactLog(q, View(w.queue.disk), w.queue, id, log, a);
    forall i | 0 <= i < |log| && log[i].payload.Refresh? ensures Continues(registered, initial, log, i) {
      LinkedAt(w.recorder, w.queue.accepted, w.queue.tail, log, i);
      RecordContinues(registered, initial, w.recorder, log, i);
    }
  }
}
