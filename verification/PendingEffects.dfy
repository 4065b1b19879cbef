/** What one event does to the lists of appended records, for those who compose the queue with its producers. */
module PendingEffects {
  import opened Basics
  import opened PendingStore
  import opened PendingSpec
  import Queue = PendingRuns

  /** Queue events that do not come from a producer. */
  predicate Outer(e: Queue.Event) {
    e.AckEvent? || e.ClaimEvent? || e.CloseEvent? || e.RestartEvent? || e.PowerEvent? || e.RecoverEvent?
  }

  /** One more record is appended, or the attempt leaves its tail, or nothing. */
  predicate Extends(w: Queue.World, v: Queue.World, p: Payload, stored: bool) {
    && (if stored
        then |v.accepted| == |w.accepted| + 1 && v.accepted[..|w.accepted|] == w.accepted && v.accepted[|w.accepted|].payload == p
        else v.accepted == w.accepted)
    && (v.tail == w.tail || (!stored && v.tail.Some? && v.tail.value.payload == p && v.q.failed && !w.q.failed))
  }

  lemma AcceptedPayload(q: State, id: Identity, d: Draft)
    ensures Accepts(q, id, d).Some? ==> Accepts(q, id, d).value.payload == d.payload && !q.failed
  {
  }

  lemma QueueAppends(w: Queue.World, id: Identity, d: Draft, o: Outcome)
    requires w.up
    ensures var v := Queue.Advance(w, id, Queue.AppendEvent(d, o));
            && v.up && v.q.frozen == w.q.frozen && v.q.finished == w.q.finished && (w.q.failed ==> v.q.failed)
            && Extends(w, v, d.payload, Appendable(w.q, d) && AppendSucceeds(w.q, id, d, o))
  {
    AcceptedPayload(w.q, id, d);
    hide Accepts, ApplyAll;
  }

  lemma QueueFinishes(w: Queue.World, id: Identity, rid: Id, size: nat, o: Outcome)
    requires w.up && Finishable(w.q)
    ensures var v := Queue.Advance(w, id, Queue.FinishEvent(rid, size, o));
            && v.up && v.q.frozen && v.q.finished && (w.q.failed ==> v.q.failed)
            && Extends(w, v, RuntimeCleanup, AppendSucceeds(w.q.(finished := true), id, CleanupDraft(rid, size), o))
  {
    AcceptedPayload(w.q.(finished := true), id, CleanupDraft(rid, size));
    hide Accepts, ApplyAll;
  }

  lemma QueueFreezes(w: Queue.World, id: Identity)
    ensures Queue.Advance(w, id, Queue.FreezeEvent) == w.(q := w.q.(frozen := true))
  {
  }

  lemma AckLatches(q: State, d: Disk, id: Identity, b: Blob, o: Outcome)
    ensures var r := Acknowledge(q, d, id, b, o).0;
            r.frozen == q.frozen && r.finished == q.finished && (q.failed ==> r.failed)
  {
    hide ApplyAll, AckOf, View;
  }

  lemma OuterQueue(w: Queue.World, id: Identity, e: Queue.Event)
    requires Outer(e)
    ensures var v := Queue.Advance(w, id, e);
            && v.accepted == w.accepted && v.tail == w.tail
            && (w.up && v.up ==> v.q.frozen == w.q.frozen && v.q.finished == w.q.finished && (w.q.failed ==> v.q.failed))
  {
    if e.AckEvent? { AckLatches(w.q, w.disk, id, e.blob, e.outcome); }
    hide Acknowledge, AckOf, Checked, View, IsImage, RecoverDisk, RecoverSucceeds;
  }

  /** What an exact recovery says about its log. */
  lemma ExactLog(q: State, view: map<string, Blob>, w: Queue.World, id: Identity, log: seq<Wire>, a: nat)
    requires Queue.Exactly(q, view, w, id, log, a)
    ensures |log| <= |w.accepted| + 1 && Queue.MarkerLast(log)
    ensures forall j :: 0 <= j < |log| && j < |w.accepted| ==> log[j] == w.accepted[j]
    ensures |log| == |w.accepted| + 1 ==> w.tail == Some(log[|w.accepted|])
  {
    hide WireAt, Queue.MarkerLast;
  }
}
