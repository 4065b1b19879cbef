/** Which receipts a queue takes, and that it takes one as often as it is sent. */
module PendingReceipts {
  import opened Basics
  import opened PendingNames
  import opened SortedNames
  import opened PendingStore
  import opened PendingSpec
  import opened PendingLayout
  import opened PendingRecovery
  import opened PendingRuns

  // ----- first receipts -----

  /** A receipt for this queue's subject that the confirmation key signed. */
  predicate Genuine(b: Blob, id: Identity) {
    && b.ReceiptBlob? && b.signer == id.confirmation && 64 < b.length <= MAX_RECEIPT && b.receipt.subject == SubjectOf(id.binding)
    && 1 <= b.receipt.sequence < MAX_INT64 && b.receipt.wireHash != ZeroHash
  }

  /** A genuine receipt for exactly the record after the acknowledged ones. */
  predicate Names(b: Blob, id: Identity, log: seq<Wire>, a: nat) {
    && Genuine(b, id) && a < |log|
    && b.receipt.sequence == a + 1 && b.receipt.recordId == log[a].header.recordId && b.receipt.wireHash == HashOf(log[a])
  }

  predicate Repeats(q: State, b: Blob, id: Identity) {
    Genuine(b, id) && q.receipt == Some(b.receipt)
  }

  lemma GenuineIff(b: Blob, id: Identity)
    ensures Genuine(b, id) <==> Confirmed(b, id)
  {
  }

  /** What the checks of an acknowledgement come to on a queue that stands at a in its log. */
  lemma AckOfExactly(w: World, id: Identity, log: seq<Wire>, a: nat, b: Blob)
    requires Exactly(w.q, View(w.disk), w, id, log, a) && !w.q.failed && !w.q.closed
    ensures AckOf(w.q, View(w.disk), id, b) ==
            if Names(b, id, log, a) then AckFirst(log[a]) else if Repeats(w.q, b, id) then AckDuplicate else AckRefused
  {
    GenuineIff(b, id);
    if Genuine(b, id) { ConfirmedReceipt(b, id); }
    hide RecordName, Bytes, VerifiedFor, View, WireAt, Inspected, MarkerLast, Confirmed, NamesOf, TailHash, Genuine;
    ExactReceipt(w, id, log, a);
    if a < |log| {
      ChainAt(id, log, a);
      FirstFile(log, a);
      assert WireAt(View(w.disk), RecordName(a + 1), id) == Some(log[a]);
    } else {
      assert |w.q.files| == 0 by { NoFiles(log, a); }
    }
    hide Exactly;
  }

  lemma NoFiles(log: seq<Wire>, a: nat)
    requires a == |log|
    ensures NamesOf(Range(a, |log|)) == []
  {
  }

  lemma ExactReceipt(w: World, id: Identity, log: seq<Wire>, a: nat)
    requires Exactly(w.q, View(w.disk), w, id, log, a)
    ensures AckedThrough(w.q) == a && (w.q.receipt.Some? ==> w.q.receipt.value.sequence == a)
  {
    hide RecordName, Bytes, VerifiedFor, View, WireAt, Inspected, MarkerLast, NamesOf, TailHash;
    if a > 0 { ChainAt(id, log, a - 1); }
  }

  /** Every record of the log is the source's own, for this binding, numbered from one and chained. */
  lemma RecordsGenuine(w: World, id: Identity, log: seq<Wire>, a: nat, i: nat)
    requires Exactly(w.q, View(w.disk), w, id, log, a) && i < |log|
    ensures log[i].signer == id.source && log[i].header.binding == id.binding && 64 < log[i].size <= MAX_WIRE
    ensures log[i].header.sequence == i + 1 && log[i].header.previous == if i == 0 then ZeroHash else HashOf(log[i - 1])
  {
    ChainAt(id, log, i);
    hide Exactly;
  }

  /**
    After every run, an open queue that has not failed stands at some point of its log.
    It takes a receipt exactly if that is genuine and names the identifier, the
    sequence and the hash of the next record, and then moves on by one; it confirms
    the last one again; and any other it refuses without a change.
   */
  lemma {:induction false} TakenIff(id: Identity, events: seq<Event>, b: Blob, o: Outcome)
    requires id.Valid()
    requires var w := Run(Created(id), id, events); w.up && !w.q.failed && !w.q.closed
    ensures var w := Run(Created(id), id, events); var v := Advance(w, id, AckEvent(b, o));
            exists log: seq<Wire>, a: nat ::
              && Exactly(w.q, View(w.disk), w, id, log, a)
              && (AckSucceeds(w.q, View(w.disk), id, b, o) <==> Repeats(w.q, b, id) || (Names(b, id, log, a) && o == Outcome(7, true)))
              && (!Names(b, id, log, a) ==> v == w)
              && (Names(b, id, log, a) && o == Outcome(7, true) ==>
                    && v.q.receipt == Some(b.receipt) && v.verified == w.verified + [b.receipt] && v.up && !v.q.failed
                    && Exactly(v.q, View(v.disk), v, id, log, a + 1))
  {
    hide Explains, RecordName, NamesOf, Bytes, VerifiedFor, View, Kept, WireAt, Exactly, Run, Mirror;
    var w := Run(Created(id), id, events);
    RunInv(id, events);
    var s :| Holds(w, id, s);
    AckedBounds(s, w.disk, id);
    ExactlyFrom(w.q, w, id, s);
    var a := Acked(s.rb);
    AckOfExactly(w, id, s.log, a, b);
    hide AckOf, Confirmed, ApplyAll, Live, Marked;
    if Names(b, id, s.log, a) {
      NotRepeated(w, id, s.log, a, b);
      if o == Outcome(7, true) { Moves(w, id, s, b); }
    } else {
      Idle(w, id, b, o);
    }
  }

  lemma NotRepeated(w: World, id: Identity, log: seq<Wire>, a: nat, b: Blob)
    requires Exactly(w.q, View(w.disk), w, id, log, a) && Names(b, id, log, a)
    ensures !Repeats(w.q, b, id)
  {
    hide Exactly;
    ExactReceipt(w, id, log, a);
  }

  lemma Idle(w: World, id: Identity, b: Blob, o: Outcome)
    requires !AckOf(w.q, View(w.disk), id, b).AckFirst?
    ensures Advance(w, id, AckEvent(b, o)) == w
  {
    hide AckOf, View;
  }

  /** All seven steps leave the queue at the next record. */
  lemma Moves(w: World, id: Identity, s: Shape, b: Blob)
    requires Holds(w, id, s) && w.up && AckOf(w.q, View(w.disk), id, b).AckFirst? && 0 <= Acked(s.rb)
    ensures var v := Advance(w, id, AckEvent(b, Outcome(7, true)));
            && b.ReceiptBlob? && v.q.receipt == Some(b.receipt) && v.verified == w.verified + [b.receipt] && v.up && !v.q.failed
            && Exactly(v.q, View(v.disk), v, id, s.log, Acked(s.rb) + 1)
  {
    hide Explains, RecordName, NamesOf, Bytes, VerifiedFor, View, Kept, WireAt, Exactly, Mirror, AckOf, ApplyAll, Confirmed;
    AckFirstFacts(w, id, s, b);
    ConfirmedReceipt(b, id);
    AckHolds(w, id, s, b, Outcome(7, true));
    var v := Advance(w, id, AckEvent(b, Outcome(7, true)));
    var t := AckShape(s, b, 7);
    AckedBounds(t, v.disk, id);
    assert t.log == s.log && t.rb == Some(b) && Acked(t.rb) == Acked(s.rb) + 1;
    ExactlyFrom(v.q, v, id, t);
  }

  // ----- repetitions -----

  predicate ReceiptFile(f: File, r: Receipt, id: Identity) {
    f.synced && Confirmed(f.blob, id) && f.blob.receipt == r
  }

  /** The directory shows the receipt; with `durable`, it would do so after a loss of power too. */
  predicate Shows(d: Disk, r: Receipt, id: Identity, durable: bool) {
    && RECEIPT in d.cache && ReceiptFile(d.cache[RECEIPT], r, id)
    && (durable ==> RECEIPT in d.durable && ReceiptFile(d.durable[RECEIPT], r, id))
  }

  /** The queue's last receipt, in memory while it works and on disk throughout. */
  predicate Remembers(w: World, r: Receipt, id: Identity, durable: bool) {
    Shows(w.disk, r, id, durable) && (w.up && !w.q.failed ==> w.q.receipt == Some(r))
  }

  predicate Spares(step: Step) {
    match step
    case Create(n) => n != RECEIPT
    case Write(n, _) => n != RECEIPT
    case SyncFile(n) => n != RECEIPT
    case Rename(from, to) => from != RECEIPT && to != RECEIPT
    case Unlink(n) => n != RECEIPT
    case SyncDir => true
  }

  lemma {:induction false} SparedReceipt(d: Disk, r: Receipt, id: Identity, durable: bool, steps: seq<Step>)
    requires Shows(d, r, id, durable) && forall i :: 0 <= i < |steps| ==> Spares(steps[i])
    ensures Shows(ApplyAll(d, steps), r, id, durable)
  {
    hide ReceiptFile;
    if steps != [] { SparedReceipt(d, r, id, durable, steps[..|steps| - 1]); }
  }

  lemma StoredShows(q: State, d: Disk, id: Identity, draft: Draft, o: Outcome, r: Receipt, durable: bool)
    requires Shows(d, r, id, durable)
    ensures Shows(Stored(q, d, id, draft, o).1, r, id, durable)
    ensures Stored(q, d, id, draft, o).0.receipt == q.receipt && (q.failed ==> Stored(q, d, id, draft, o).0.failed)
  {
    hide Shows, ApplyAll, RecordName, Accepts;
    var w := Accepts(q, id, draft);
    if w.Some? && o.done <= 5 {
      AcceptsHeader(q, id, draft);
      RecordNotReceipt(w.value.header.sequence);
      var steps := AppendSteps(w.value)[..o.done];
      assert forall i :: 0 <= i < |steps| ==> Spares(steps[i]);
      SparedReceipt(d, r, id, durable, steps);
    }
  }

  lemma AcceptsHeader(q: State, id: Identity, draft: Draft)
    requires Accepts(q, id, draft).Some?
    ensures ValidHeader(Accepts(q, id, draft).value.header)
  {
  }

  lemma RecordNotReceipt(i: nat)
    ensures RecordName(i) != RECEIPT
  {
    assert |RecordName(i)| > |RECEIPT|;
  }

  lemma PowerShows(d: Disk, r: Receipt, id: Identity, img: map<string, Blob>)
    requires Shows(d, r, id, true) && IsImage(d, img)
    ensures Shows(Settled(img), r, id, true)
  {
    assert RECEIPT in img;
  }

  lemma {:induction false} ScanSparesReceipt(names: seq<string>, view: map<string, Blob>, id: Identity, r: Option<Receipt>)
    requires ScanAll(names, view, id, r).Some?
    ensures RECEIPT !in ScanAll(names, view, id, r).value.acknowledged
  {
    hide WireAt, ParseRecordName;
    if names != [] { ScanSparesReceipt(names[..|names| - 1], view, id, r); }
  }

  lemma CheckedReceipt(names: seq<string>, d: Disk, id: Identity, r: Receipt, durable: bool)
    requires Shows(d, r, id, durable) && Checked(names, View(d), id).Some?
    ensures var c := Checked(names, View(d), id).value; c.0.receipt == Some(r) && RECEIPT !in c.1
  {
    assert ReadReceipt(View(d), id) == GoodReceipt(Some(r));
    ScanSparesReceipt(names, View(d), id, Some(r));
    hide ScanAll, PhysicalBytes;
  }

  lemma RemovalSpares(names: seq<string>, k: nat)
    requires RECEIPT !in names && k <= |RemovalSteps(names)|
    ensures forall i :: 0 <= i < k ==> Spares(RemovalSteps(names)[..k][i])
  {
  }

  lemma RecoverShows(w: World, id: Identity, names: seq<string>, o: Outcome, r: Receipt, durable: bool)
    requires Remembers(w, r, id, durable) && !w.up
    ensures Remembers(Advance(w, id, RecoverEvent(names, o)), r, id, durable)
  {
    hide Shows, ApplyAll, View, Checked, Sort, RemovalSteps, IsDirectory;
    var c := Checked(Sort(names), View(w.disk), id);
    if c.Some? {
      CheckedReceipt(Sort(names), w.disk, id, r, durable);
      if o.done <= |RemovalSteps(c.value.1)| {
        RemovalSpares(c.value.1, o.done);
        SparedReceipt(w.disk, r, id, durable, RemovalSteps(c.value.1)[..o.done]);
      }
    }
  }

  /** Nothing but another receipt makes the queue forget the last one. */
  lemma StepRemembers(w: World, id: Identity, e: Event, r: Receipt, durable: bool)
    requires Remembers(w, r, id, durable) && Advance(w, id, e).verified == w.verified && (e.PowerEvent? ==> durable)
    ensures Remembers(Advance(w, id, e), r, id, durable)
  {
    hide Shows, Stored, AckOf, View, Checked, IsImage, Accepts;
    match e
    case AppendEvent(d, o) => StoredShows(w.q, w.disk, id, d, o, r, durable);
    case FinishEvent(rid, size, o) => StoredShows(w.q.(finished := true), w.disk, id, CleanupDraft(rid, size), o, r, durable);
    case AckEvent(b, o) => TakenGrows(w, id, b, o);
    case PowerEvent(img) => if IsImage(w.disk, img) { PowerShows(w.disk, r, id, img); }
    case RecoverEvent(names, o) => if !w.up { RecoverShows(w, id, names, o, r, durable); }
    case _ =>
  }

  lemma TakenGrows(w: World, id: Identity, b: Blob, o: Outcome)
    requires Advance(w, id, AckEvent(b, o)).verified == w.verified
    ensures Advance(w, id, AckEvent(b, o)) == w
  {
    hide View, WireAt, Confirmed, ApplyAll;
    if AckOf(w.q, View(w.disk), id, b).AckFirst? { FirstIsReceipt(w.q, View(w.disk), id, b); }
    hide AckOf;
  }

  lemma FirstIsReceipt(q: State, view: map<string, Blob>, id: Identity, b: Blob)
    requires AckOf(q, view, id, b).AckFirst?
    ensures b.ReceiptBlob?
  {
  }

  lemma VerifiedGrows(w: World, id: Identity, e: Event)
    ensures w.verified <= Advance(w, id, e).verified
  {
    hide Append, Finish, Acknowledge, AckOf, Checked, IsImage;
  }

  lemma {:induction false} RunGrows(w: World, id: Identity, later: seq<Event>)
    ensures w.verified <= Run(w, id, later).verified
  {
    hide Advance;
    if later != [] {
      RunGrows(w, id, later[..|later| - 1]);
      VerifiedGrows(Run(w, id, later[..|later| - 1]), id, later[|later| - 1]);
    }
  }

  lemma {:induction false} RunRemembers(w: World, id: Identity, later: seq<Event>, r: Receipt, durable: bool)
    requires Remembers(w, r, id, durable) && Run(w, id, later).verified == w.verified
    requires durable || forall i :: 0 <= i < |later| ==> !later[i].PowerEvent?
    ensures Remembers(Run(w, id, later), r, id, durable)
  {
    hide Advance, Remembers;
    if later != [] {
      var before, e := later[..|later| - 1], later[|later| - 1];
      RunGrows(w, id, before);
      VerifiedGrows(Run(w, id, before), id, e);
      RunRemembers(w, id, before, r, durable);
      StepRemembers(Run(w, id, before), id, e, r, durable);
    }
  }

  lemma FirstRemembers(w: World, id: Identity, s: Shape, b: Blob)
    requires Holds(w, id, s) && w.up && AckOf(w.q, View(w.disk), id, b).AckFirst? && 0 <= Acked(s.rb)
    ensures b.ReceiptBlob? && Remembers(Advance(w, id, AckEvent(b, Outcome(7, true))), b.receipt, id, true)
  {
    hide Explains, RecordName, Exactly, View, Kept, Live, Marked, ApplyAll, AckOf, Confirmed, Shows, Advance;
    AckFirstFacts(w, id, s, b);
    ConfirmedReceipt(b, id);
    AckHolds(w, id, s, b, Outcome(7, true));
    Moves(w, id, s, b);
    ShapeShows(AckShape(s, b, 7), Advance(w, id, AckEvent(b, Outcome(7, true))).disk, id, b, true);
  }

  lemma AgainRemembers(w: World, id: Identity, s: Shape, b: Blob, o: Outcome)
    requires Holds(w, id, s) && w.up && !w.q.failed && Repeats(w.q, b, id) && !AckOf(w.q, View(w.disk), id, b).AckFirst?
    ensures Remembers(Advance(w, id, AckEvent(b, o)), b.receipt, id, false)
  {
    ConfirmedReceipt(b, id);
    hide Explains, RecordName, View, Kept, Marked, AckOf, Confirmed, Shows, Mirror;
    AckedBounds(s, w.disk, id);
    Idle(w, id, b, o);
    MirrorReceipt(w, s, b.receipt);
    ShapeShows(s, w.disk, id, s.rb.value, false);
  }

  /** A successful acknowledgement leaves its receipt behind, durably if it was the first. */
  lemma SuccessRemembers(w: World, id: Identity, b: Blob, o: Outcome)
    requires Inv(w, id) && w.up && AckSucceeds(w.q, View(w.disk), id, b, o)
    ensures Confirmed(b, id) && Remembers(Advance(w, id, AckEvent(b, o)), b.receipt, id, w.q.receipt != Some(b.receipt))
  {
    SuccessMeans(w.q, View(w.disk), id, b, o);
    GenuineIff(b, id);
    hide Genuine, Explains, View, Live, Kept, Marked, AckOf, Confirmed, Remembers, Advance, AckSucceeds;
    var s :| Holds(w, id, s);
    AckedBounds(s, w.disk, id);
    if w.q.receipt != Some(b.receipt) { FirstRemembers(w, id, s, b); } else { AgainRemembers(w, id, s, b, o); }
  }

  lemma SuccessMeans(q: State, view: map<string, Blob>, id: Identity, b: Blob, o: Outcome)
    requires AckSucceeds(q, view, id, b, o)
    ensures Confirmed(b, id) && b.ReceiptBlob? && !q.failed
    ensures if q.receipt == Some(b.receipt) then !AckOf(q, view, id, b).AckFirst? else AckOf(q, view, id, b).AckFirst? && o == Outcome(7, true)
  {
    hide WireAt;
  }

  lemma MirrorReceipt(w: World, s: Shape, r: Receipt)
    requires 0 <= Acked(s.rb) <= |s.log| && Mirror(w.q, s) && w.q.receipt == Some(r)
    ensures s.rb.Some? && s.rb.value.ReceiptBlob? && s.rb.value.receipt == r
  {
  }

  lemma ShapeShows(s: Shape, d: Disk, id: Identity, b: Blob, durable: bool)
    requires Explains(s, d, id) && s.rb == Some(b) && b.ReceiptBlob? && (durable ==> s.drb == Some(b))
    ensures Shows(d, b.receipt, id, durable)
  {
    hide RecordName, Chain, Bytes;
  }

  /**
    After every run: once an acknowledgement has succeeded, and no other receipt has
    been taken since, the same receipt succeeds again on an open queue that has not
    failed, and changes nothing.  Crashes and recoveries may lie between; so may losses
    of power, if the first success was for a receipt that the queue did not have yet.
   */
  lemma {:induction false} ReceiptRepeats(id: Identity, events: seq<Event>, b: Blob, o: Outcome, later: seq<Event>, again: Outcome)
    requires id.Valid()
    requires var w := Run(Created(id), id, events);
             && w.up && AckSucceeds(w.q, View(w.disk), id, b, o)
             && (w.q.receipt != (if b.ReceiptBlob? then Some(b.receipt) else None) || forall i :: 0 <= i < |later| ==> !later[i].PowerEvent?)
    requires var u := Advance(Run(Created(id), id, events), id, AckEvent(b, o)); var v := Run(u, id, later);
             v.up && !v.q.failed && !v.q.closed && v.verified == u.verified
    ensures var v := Run(Advance(Run(Created(id), id, events), id, AckEvent(b, o)), id, later);
            AckSucceeds(v.q, View(v.disk), id, b, again) && Advance(v, id, AckEvent(b, again)) == v
  {
    var w := Run(Created(id), id, events);
    RunInv(id, events);
    SuccessRemembers(w, id, b, o);
    GenuineIff(b, id);
    hide Genuine, Run, Advance, Inv, View, AckSucceeds, Shows;
    var u := Advance(w, id, AckEvent(b, o));
    RunRemembers(u, id, later, b.receipt, w.q.receipt != Some(b.receipt));
    var v := Run(u, id, later);
    Again(v, id, b, again);
  }

  lemma Again(v: World, id: Identity, b: Blob, o: Outcome)
    requires v.up && !v.q.failed && !v.q.closed && Repeats(v.q, b, id)
    ensures AckSucceeds(v.q, View(v.disk), id, b, o) && Advance(v, id, AckEvent(b, o)) == v
  {
    GenuineIff(b, id);
    hide View, WireAt, Confirmed, Genuine;
  }
}
