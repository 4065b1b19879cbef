/** Which records a queue stores, and as what. */
module PendingAppends {
  import opened Basics
  import opened PendingNames
  import opened PendingStore
  import opened PendingSpec
  import opened PendingLayout
  import opened PendingRuns

  /** A record that the queue's key can seal, bound to nothing else, within the limits of one record and of the queue. */
  predicate Fits(q: State, id: Identity, d: Draft) {
    && d.wellFormed && 64 < d.size <= MAX_WIRE && (d.bound.Some? ==> d.bound.value == id.binding) && q.hasKey && q.sequence + 1 < MAX_INT64
    && |q.files| < id.limits.maxRecords && q.bytes + d.size + RESERVED <= id.limits.maxBytes
  }

  /** The record after those accepted so far: signed by the source, numbered, and chained to the one before it. */
  function NextWire(accepted: seq<Wire>, id: Identity, d: Draft): Wire {
    var previous := if accepted == [] then ZeroHash else HashOf(accepted[|accepted| - 1]);
    Wire(Header(id.binding, d.recordId, |accepted| + 1, previous), d.payload, id.source, d.size)
  }

  /** A queue that can still seal stands at the end of what was accepted. */
  lemma StandsAtEnd(w: World, id: Identity, s: Shape)
    requires Holds(w, id, s) && w.up && !w.q.failed && w.q.hasKey
    ensures w.q.sequence == |w.accepted| && w.q.hash == if w.accepted == [] then ZeroHash else HashOf(w.accepted[|w.accepted| - 1])
  {
    hide NamesOf, Bytes, Kept, Marked, Laid, Covers, Chain;
  }

  lemma SealedNext(q: State, id: Identity, d: Draft, accepted: seq<Wire>)
    requires !q.failed && q.hasKey ==>
               q.sequence == |accepted| && q.hash == if accepted == [] then ZeroHash else HashOf(accepted[|accepted| - 1])
    ensures Accepts(q, id, d).Some? <==> !q.closed && !q.failed && Fits(q, id, d)
    ensures Accepts(q, id, d).Some? ==> Accepts(q, id, d).value == NextWire(accepted, id, d)
  {
  }

  lemma AcceptsIff(w: World, id: Identity, s: Shape, q: State, d: Draft)
    requires Holds(w, id, s) && w.up && (q == w.q || q == w.q.(finished := true))
    ensures Accepts(q, id, d).Some? <==> !q.closed && !q.failed && Fits(q, id, d)
    ensures Accepts(q, id, d).Some? ==> Accepts(q, id, d).value == NextWire(w.accepted, id, d)
  {
    hide *;
    if !w.q.failed && w.q.hasKey { StandsAtEnd(w, id, s); }
    SealedNext(q, id, d, w.accepted);
  }

  /** The record is the next one accepted, and reads back from the directory as what it is. */
  ghost predicate Gains(w: World, v: World, id: Identity, d: Draft) {
    var wire := NextWire(w.accepted, id, d);
    && v.accepted == w.accepted + [wire] && v.up && !v.q.failed && v.q.sequence == |v.accepted|
    && 0 < |v.accepted| < MAX_INT64 && WireAt(View(v.disk), RecordName(|v.accepted|), id) == Some(wire)
  }

  lemma StoredGains(w: World, id: Identity, s: Shape, q: State, d: Draft)
    requires Holds(w, id, s) && w.up && (q == w.q || q == w.q.(finished := true)) && Accepts(q, id, d).Some?
    requires s.log != [] ==> !s.log[|s.log| - 1].payload.RuntimeCleanup?
    requires d.payload.RuntimeCleanup? ==> q.finished && q.frozen
    ensures Gains(w, AfterStore(w, id, q, d, Outcome(5, true)), id, d)
  {
    hide Explains, Bytes, NamesOf, RecordName, VerifiedFor, Kept, MarkerLast, ApplyAll, Inspected, WireAt, View, Mirror, NextWire;
    var v, wire := AfterStore(w, id, q, d, Outcome(5, true)), Accepts(q, id, d).value;
    AcceptsIff(w, id, s, q, d);
    AcceptedWire(w, id, s, q, d);
    StoredHolds(w, id, s, q, d, Outcome(5, true));
    var t := AppendShape(s, wire, 5);
    hide Accepts;
    AckedBounds(t, v.disk, id);
    AckedBounds(s, w.disk, id);
    ExactlyFrom(v.q, v, id, t);
    LastReads(v.q, v, id, t.log, Acked(t.rb));
  }

  lemma LastReads(q: State, w: World, id: Identity, log: seq<Wire>, a: nat)
    requires Exactly(q, View(w.disk), w, id, log, a) && a < |log| < MAX_INT64
    ensures WireAt(View(w.disk), RecordName(|log|), id) == Some(log[|log| - 1]) && q.sequence == |log|
  {
    hide RecordName, NamesOf, Bytes, VerifiedFor, View, WireAt, MarkerLast, TailHash, Chain;
  }

  lemma NoMarkerYet(w: World, id: Identity, s: Shape)
    requires Holds(w, id, s) && w.up && !w.q.failed && w.q.hasKey && !(w.q.finished && w.q.frozen)
    ensures s.log != [] ==> !s.log[|s.log| - 1].payload.RuntimeCleanup?
  {
    hide Explains, Kept, Mirror;
  }

  /**
    After every run, an append by the running process succeeds exactly if the queue is
    neither closed, failed nor frozen, the record is no terminal marker and fits, and all
    five steps take effect; the record is then the next of the chain and can be read
    back.  One that is refused changes nothing.
   */
  lemma {:induction false} AppendedIff(id: Identity, events: seq<Event>, d: Draft, o: Outcome)
    requires id.Valid() && Run(Created(id), id, events).up
    ensures var w := Run(Created(id), id, events); var v := Advance(w, id, AppendEvent(d, o));
            var takes := !w.q.closed && !w.q.failed && !w.q.frozen && !d.payload.RuntimeCleanup? && Fits(w.q, id, d);
            && (Appendable(w.q, d) && AppendSucceeds(w.q, id, d, o) <==> takes && o == Outcome(5, true))
            && (takes && o == Outcome(5, true) ==> Gains(w, v, id, d))
            && (!takes ==> v == w)
            && (takes && o.done <= 5 && o != Outcome(5, true) ==> v.q.failed && v.accepted == w.accepted)
  {
    hide Explains, Run, RecordName, ApplyAll, WireAt, View, Gains, Kept, Mirror, Fits;
    var w := Run(Created(id), id, events);
    RunInv(id, events);
    var s :| Holds(w, id, s);
    AcceptsIff(w, id, s, w.q, d);
    if Appendable(w.q, d) && Accepts(w.q, id, d).Some? {
      AcceptedWire(w, id, s, w.q, d);
      NoMarkerYet(w, id, s);
      StoredGains(w, id, s, w.q, d);
    }
    hide Accepts, Holds;
  }

  /**
    After every run, finishing stores the terminal marker exactly if the queue is open and
    frozen, its producer was claimed, it was not finished before, the marker fits, and all
    five steps take effect; and after any attempt that was allowed no second one is.
   */
  lemma {:induction false} FinishedIff(id: Identity, events: seq<Event>, recordId: Id, size: nat, o: Outcome)
    requires id.Valid() && Run(Created(id), id, events).up
    ensures var w := Run(Created(id), id, events); var v := Advance(w, id, FinishEvent(recordId, size, o)); var d := CleanupDraft(recordId, size);
            var allowed := w.q.frozen && w.q.claimed && !w.q.finished && w.q.hasKey;
            var takes := allowed && !w.q.closed && !w.q.failed && Fits(w.q, id, d);
            && (v.accepted != w.accepted <==> takes && o == Outcome(5, true))
            && (takes && o == Outcome(5, true) ==> Gains(w, v, id, d) && v.accepted[|w.accepted|].payload == RuntimeCleanup)
            && (!allowed ==> v == w) && (allowed ==> v.q.finished && (!takes ==> v == w.(q := w.q.(finished := true))))
  {
    hide Explains, Run, RecordName, ApplyAll, WireAt, View, Kept, Mirror, Fits;
    var w, d := Run(Created(id), id, events), CleanupDraft(recordId, size);
    var q := w.q.(finished := true);
    RunInv(id, events);
    var s :| Holds(w, id, s);
    AcceptsIff(w, id, s, q, d);
    assert Fits(q, id, d) == Fits(w.q, id, d) by { SameRoom(w.q, id, d); }
    if Finishable(w.q) && Accepts(q, id, d).Some? {
      AcceptedWire(w, id, s, q, d);
      NoMarkerYet(w, id, s);
      StoredGains(w, id, s, q, d);
    }
    hide Accepts, Holds;
  }

  lemma SameRoom(q: State, id: Identity, d: Draft)
    ensures Fits(q.(finished := true), id, d) == Fits(q, id, d)
  {
  }
}
