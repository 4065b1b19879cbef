/**
  Whole runs of a pending queue: appends, acknowledgements, freeze and finish,
  each stopping after any of its file-system steps, with process restarts and
  losses of power in between.
 */
module PendingRuns {
  import opened Basics
  import opened PendingNames
  import opened SortedNames
  import opened PendingStore
  import opened PendingSpec
  import opened PendingLayout
  import opened PendingRecovery
  import opened PendingPower

  /**
    `accepted` lists the wires whose append reported success, `tail` is the one whose
    append failed after its record could be seen, `verified` lists the receipts that
    passed every check of an acknowledgement. A run is `orderly` while no power was
    lost on an exposed disk.
   */
  datatype World = World(up: bool, q: State, disk: Disk, accepted: seq<Wire>, tail: Option<Wire>, verified: seq<Receipt>, orderly: bool)

  datatype Event =
    | AppendEvent(draft: Draft, outcome: Outcome)
    | FinishEvent(recordId: Id, size: nat, outcome: Outcome)
    | AckEvent(blob: Blob, outcome: Outcome)
    | FreezeEvent
    | ClaimEvent
    | CloseEvent
    | RestartEvent
    | PowerEvent(image: map<string, Blob>)
    | RecoverEvent(names: seq<string>, outcome: Outcome)

  function CreatedDisk(id: Identity): Disk {
    Settled(map[LOCK := Empty, IDENTITY := IdentityBlob(id)])
  }

  function Created(id: Identity): World {
    World(true, Fresh(), CreatedDisk(id), [], None, [], true)
  }

  /** A replacement whose five steps all took effect leaves a durable directory with just that file changed. */
  lemma {:induction false} AtomicReplaces(d: Disk, name: string, b: Blob)
    requires name != TMP && TMP !in d.cache
    ensures ApplyAll(d, AtomicSteps(name, b)) == Disk(d.cache[name := File(b, true)], d.cache[name := File(b, true)])
  {
    hide ApplyAll;
    var steps := AtomicSteps(name, b);
    assert steps[..5] == steps;
    ApplyNone(d, steps);
    ApplyNext(d, steps, 0);
    ApplyNext(d, steps, 1);
    assert ApplyAll(d, steps[..2]).cache == d.cache[TMP := File(b, false)];
    ApplyNext(d, steps, 2);
    assert ApplyAll(d, steps[..3]).cache == d.cache[TMP := File(b, true)];
    ApplyNext(d, steps, 3);
    assert d.cache[TMP := File(b, true)] - {TMP} == d.cache;
    assert ApplyAll(d, steps[..4]).cache == d.cache[name := File(b, true)];
    ApplyNext(d, steps, 4);
  }

  /** The wire of an append that failed, but only after the rename of its record. */
  function TailOf(q: State, id: Identity, d: Draft, o: Outcome): Option<Wire> {
    if 4 <= o.done <= 5 && !(o.ok && o.done == 5) then Accepts(q, id, d) else None
  }

  function NewTail(w: World, tail: Option<Wire>): Option<Wire> {
    if tail.Some? then tail else w.tail
  }

  ghost function Advance(w: World, id: Identity, e: Event): World {
    match e
    case AppendEvent(d, o) =>
      if !w.up then w else
      var (q, disk) := Append(w.q, w.disk, id, d, o);
      w.(q := q, disk := disk,
         accepted := if Appendable(w.q, d) && AppendSucceeds(w.q, id, d, o)
                     then w.accepted + [Accepts(w.q, id, d).value] else w.accepted,
         tail := if Appendable(w.q, d) then NewTail(w, TailOf(w.q, id, d, o)) else w.tail)
    case FinishEvent(rid, size, o) =>
      if !w.up then w else
      var d, q1 := CleanupDraft(rid, size), w.q.(finished := true);
      var (q, disk) := Finish(w.q, w.disk, id, rid, size, o);
      w.(q := q, disk := disk,
         accepted := if Finishable(w.q) && AppendSucceeds(q1, id, d, o) then w.accepted + [Accepts(q1, id, d).value] else w.accepted,
         tail := if Finishable(w.q) then NewTail(w, TailOf(q1, id, d, o)) else w.tail)
    case AckEvent(b, o) =>
      if !w.up then w else
      var (q, disk) := Acknowledge(w.q, w.disk, id, b, o);
      w.(q := q, disk := disk,
         verified := if AckOf(w.q, View(w.disk), id, b).AckFirst? && b.ReceiptBlob? then w.verified + [b.receipt] else w.verified)
    case FreezeEvent => w.(q := w.q.(frozen := true))
    case ClaimEvent =>
      if !w.q.claimed && w.q.sequence == 0 && ProducerReady(w.q, id, id.binding, id.source, id.confirmation)
      then w.(q := w.q.(claimed := true)) else w
    case CloseEvent => w.(q := w.q.(closed := true, hasKey := false))
    case RestartEvent => w.(up := false)
    case PowerEvent(img) =>
      if IsImage(w.disk, img) then w.(up := false, disk := Settled(img), orderly := w.orderly && !Exposed(w.disk)) else w
    case RecoverEvent(names, o) =>
      if w.up || !IsDirectory(names, w.disk) then w else
      var next := w.(disk := RecoverDisk(names, w.disk, id, o));
      if RecoverSucceeds(names, w.disk, id, o)
      then next.(up := true, q := Checked(Sort(names), View(w.disk), id).value.0) else next
  }

  ghost function Run(w: World, id: Identity, events: seq<Event>): World {
    if events == [] then w else Advance(Run(w, id, events[..|events| - 1]), id, events[|events| - 1])
  }

  // ----- the invariant -----

  ghost predicate VerifiedFor(verified: seq<Receipt>, w: Wire) {
    exists r :: r in verified && ReceiptFor(r, w)
  }

  ghost predicate Mirror(q: State, s: Shape)
    requires 0 <= Acked(s.rb) <= |s.log|
  {
    && q.files == NamesOf(Range(Acked(s.rb), |s.log|)) && q.bytes == Bytes(s.log, Acked(s.rb), |s.log|)
    && q.sequence == |s.log| && q.hash == TailHash(s.log, |s.log|) && q.receipt == ReceiptIn(s.rb)
  }

  /** What became of every record whose append reported success. */
  ghost predicate Kept(w: World, s: Shape) {
    && (forall i :: 0 <= i < |w.accepted| ==>
          (i < s.dlen && i < |s.log| && s.log[i] == w.accepted[i]) || VerifiedFor(w.verified, w.accepted[i]))
    && (forall i :: 0 <= i < |s.log| && i < |w.accepted| ==> s.log[i] == w.accepted[i])
    && |s.log| <= |w.accepted| + 1 && (|s.log| == |w.accepted| + 1 ==> w.tail == Some(s.log[|w.accepted|]))
    && (forall i :: 0 <= i < |s.log| && i < Acked(s.rb) ==> VerifiedFor(w.verified, s.log[i]))
    && (w.orderly ==> |w.accepted| <= s.dlen)
  }

  /** The terminal marker is the last record, and its producer can append nothing more. */
  ghost predicate MarkerLast(log: seq<Wire>) {
    forall i :: 0 <= i < |log| - 1 ==> !log[i].payload.RuntimeCleanup?
  }

  ghost predicate Marked(w: World, log: seq<Wire>) {
    && MarkerLast(log)
    && (w.up && w.q.hasKey && log != [] && log[|log| - 1].payload.RuntimeCleanup? ==> w.q.finished && w.q.frozen)
  }

  ghost predicate Live(w: World, s: Shape)
    requires 0 <= Acked(s.rb) <= |s.log|
  {
    w.up && !w.q.failed ==>
      && TMP !in w.disk.cache && s.keep == {} && Mirror(w.q, s)
      && (w.q.hasKey ==> s.dlen == |s.log| && s.dkeep == {} && s.drb == s.rb && s.lo == Acked(s.rb) && w.accepted == s.log)
  }

  ghost predicate Holds(w: World, id: Identity, s: Shape) {
    Explains(s, w.disk, id) && Live(w, s) && Kept(w, s) && Marked(w, s.log)
  }

  /** Only a loss of power on an exposed disk leads here: recovery refuses the directory for ever. */
  ghost predicate Dead(w: World, id: Identity) {
    !w.up && !w.orderly && (exists img :: w.disk == Settled(img)) && Refused(w.disk, id)
  }

  ghost predicate Inv(w: World, id: Identity) {
    (exists s :: Holds(w, id, s)) || Dead(w, id)
  }

  lemma CreatedHolds(id: Identity)
    requires id.Valid()
    ensures Inv(Created(id), id)
  {
    var s := Shape([], 0, {}, None, 0, {}, None);
    var w := Created(id);
    assert Laid(w.disk.cache, id, [], {}, None);
    assert Explains(s, w.disk, id);
    assert Holds(w, id, s);
  }

  // ----- append and finish -----

  ghost function AppendShape(s: Shape, w: Wire, k: nat): Shape {
    if k <= 3 then s else
    var t := s.(log := s.log + [w]);
    if k == 4 then t else t.(dlen := |t.log|, dkeep := t.keep, drb := t.rb)
  }

  /** The first three steps of a replacement touch only the temporary file. */
  lemma AtomicPrefix(s: Shape, d: Disk, id: Identity, name: string, b: Blob, k: nat)
    requires Explains(s, d, id) && k <= 3
    ensures var e := ApplyAll(d, AtomicSteps(name, b)[..k]);
            Explains(s, e, id) && (k == 3 ==> TMP in e.cache && e.cache[TMP] == File(b, true) && e.cache - {TMP} == d.cache - {TMP})
  {
    hide Explains;
    var steps := AtomicSteps(name, b);
    assert steps[..0] == [];
    if k > 0 { ApplyNext(d, steps, 0); TemporaryStep(s, d, id, steps[0]); }
    if k > 1 { ApplyNext(d, steps, 1); TemporaryStep(s, ApplyAll(d, steps[..1]), id, steps[1]); }
    if k > 2 { ApplyNext(d, steps, 2); TemporaryStep(s, ApplyAll(d, steps[..2]), id, steps[2]); }
  }

  lemma AppendDisk(s: Shape, d: Disk, id: Identity, w: Wire, k: nat)
    requires Explains(s, d, id) && s.dlen == |s.log| && k <= 5
    requires Inspected(w, id) && w.header.sequence == |s.log| + 1 && w.header.previous == TailHash(s.log, |s.log|)
    requires |s.log| + 1 - s.lo <= id.limits.maxRecords && Bytes(s.log, s.lo, |s.log|) + w.size + RESERVED <= id.limits.maxBytes
    ensures var e := ApplyAll(d, AppendSteps(w)[..k]);
            Explains(AppendShape(s, w, k), e, id) && (k == 5 ==> TMP !in e.cache)
  {
    hide Explains, RecordName, Bytes;
    var steps := AppendSteps(w);
    if k <= 3 {
      AtomicPrefix(s, d, id, RecordName(w.header.sequence), WireBlob(w), k);
    } else {
      AtomicPrefix(s, d, id, RecordName(w.header.sequence), WireBlob(w), 3);
      ApplyNext(d, steps, 3);
      RenameRecordStep(s, ApplyAll(d, steps[..3]), id, w);
      if k == 5 {
        ApplyNext(d, steps, 4);
        SyncDirStep(AppendShape(s, w, 4), ApplyAll(d, steps[..4]), id);
        AllNamesDistinct(|s.log| + 1);
        assert RecordName(|s.log| + 1) != TMP;
      }
    }
  }

  lemma MirrorAppended(q: State, s: Shape, t: Shape, w: Wire)
    requires 0 <= Acked(s.rb) <= |s.log| && Mirror(q, s) && ValidHeader(w.header) && w.header.sequence == |s.log| + 1
    requires t.log == s.log + [w] && t.rb == s.rb
    ensures Mirror(Appended(q, w), t)
  {
    hide RecordName, NamesOf;
    var a, n := Acked(s.rb), |s.log|;
    assert Range(a, n + 1) == Range(a, n) + [n + 1];
    NamesSnoc(Range(a, n), n + 1);
    assert t.log[..n] == s.log[..n];
    BytesSame(t.log, s.log, a, n);
  }

  /** What an accepted draft looks like to the chain and to the limits. */
  lemma AcceptedWire(w: World, id: Identity, s: Shape, q: State, d: Draft)
    requires Holds(w, id, s) && w.up && (q == w.q || q == w.q.(finished := true)) && Accepts(q, id, d).Some?
    ensures var wire := Accepts(q, id, d).value;
            && Inspected(wire, id) && wire.header.sequence == |s.log| + 1 && wire.header.previous == TailHash(s.log, |s.log|)
            && |s.log| + 1 - s.lo <= id.limits.maxRecords
            && Bytes(s.log, s.lo, |s.log|) + wire.size + RESERVED <= id.limits.maxBytes
            && wire.payload == d.payload && !w.q.failed && w.q.hasKey && !q.failed
            && ValidHeader(wire.header) && 0 <= Acked(s.rb) <= |s.log| && Mirror(q, s)
  {
    hide RecordName, NamesOf, Bytes, Laid, Covers, Chain;
    assert |NamesOf(Range(Acked(s.rb), |s.log|))| == |s.log| - Acked(s.rb);
  }

  ghost function AfterStore(w: World, id: Identity, q: State, d: Draft, o: Outcome): World
    requires Accepts(q, id, d).Some?
  {
    var (q', disk') := Stored(q, w.disk, id, d, o);
    w.(q := q', disk := disk', accepted := if o.ok && o.done == 5 then w.accepted + [Accepts(q, id, d).value] else w.accepted,
       tail := NewTail(w, TailOf(q, id, d, o)))
  }

  lemma KeptStored(w: World, w': World, s: Shape, wire: Wire, k: nat)
    requires Kept(w, s) && w.accepted == s.log && s.dlen == |s.log| && k <= 5
    requires (w'.accepted == w.accepted && (k >= 4 ==> w'.tail == Some(wire))) || (k == 5 && w'.accepted == w.accepted + [wire])
    requires w'.verified == w.verified && w'.orderly == w.orderly
    requires 0 <= Acked(s.rb) <= |s.log|
    ensures Kept(w', AppendShape(s, wire, k))
  {
    hide VerifiedFor;
  }

  lemma StoredHolds(w: World, id: Identity, s: Shape, q: State, d: Draft, o: Outcome)
    requires Holds(w, id, s) && w.up && (q == w.q || q == w.q.(finished := true))
    requires Accepts(q, id, d).Some? && o.done <= 5
    requires s.log != [] ==> !s.log[|s.log| - 1].payload.RuntimeCleanup?
    requires d.payload.RuntimeCleanup? ==> q.finished && q.frozen
    ensures Holds(AfterStore(w, id, q, d, o), id, AppendShape(s, Accepts(q, id, d).value, o.done))
  {
    hide Explains, Accepts, Inspected, ApplyAll, Bytes, NamesOf, RecordName, VerifiedFor, Kept, Mirror, TailHash;
    var wire := Accepts(q, id, d).value;
    AckedBounds(s, w.disk, id);
    AcceptedWire(w, id, s, q, d);
    AppendDisk(s, w.disk, id, wire, o.done);
    MirrorAppended(q, s, AppendShape(s, wire, 5), wire);
    KeptStored(w, AfterStore(w, id, q, d, o), s, wire, o.done);
  }

  lemma AckedBounds(s: Shape, d: Disk, id: Identity)
    requires Explains(s, d, id)
    ensures 0 <= Acked(s.drb) <= Acked(s.rb) <= |s.log| <= s.dlen + 1 && Acked(s.drb) <= s.dlen <= |s.log| < MAX_INT64
  {
    hide Laid, Covers, Bytes;
  }

  // ----- acknowledgement -----

  ghost function Synced(s: Shape): Shape {
    s.(dlen := |s.log|, dkeep := s.keep, drb := s.rb)
  }

  ghost function AckShape(s: Shape, b: Blob, k: nat): Shape
    requires 0 <= Acked(s.rb)
  {
    var renamed := s.(keep := {Acked(s.rb) + 1}, rb := Some(b));
    if k <= 3 then s
    else if k == 4 then renamed
    else if k == 5 then Synced(renamed)
    else if k == 6 then Synced(renamed).(keep := {})
    else Synced(renamed.(keep := {})).(lo := Acked(s.rb) + 1)
  }

  lemma {:induction false} BytesHead(log: seq<Wire>, a: nat, hi: nat)
    requires a < hi <= |log|
    ensures Bytes(log, a, hi) == log[a].size + Bytes(log, a + 1, hi)
  {
    if a + 1 < hi { BytesHead(log, a, hi - 1); }
  }

  lemma Trimmed(s: Shape, d: Disk, id: Identity)
    requires Explains(s, d, id) && s.keep == {} && s.dkeep == {} && s.drb == s.rb
    ensures Explains(s.(lo := Acked(s.rb)), d, id)
  {
    hide Laid, Covers, Chain;
    SuffixFits(s.log, s.lo, Acked(s.rb), |s.log|);
  }

  lemma AckDisk(s: Shape, d: Disk, id: Identity, b: Blob, k: nat)
    requires Explains(s, d, id) && s.keep == {} && Acked(s.rb) < |s.log| && k <= 7
    requires Confirmed(b, id) && 0 <= Acked(s.rb) == b.receipt.sequence - 1 && ReceiptFor(b.receipt, s.log[Acked(s.rb)])
    ensures var e := ApplyAll(d, AckSteps(b, RecordName(Acked(s.rb) + 1))[..k]);
            Explains(AckShape(s, b, k), e, id) && (k == 7 ==> TMP !in e.cache)
  {
    hide Explains, RecordName, Bytes, ReceiptFor;
    var i := Acked(s.rb) + 1;
    var steps := AckSteps(b, RecordName(i));
    assert forall j :: 0 <= j <= 5 ==> steps[..j] == AtomicSteps(RECEIPT, b)[..j];
    if k <= 3 {
      AtomicPrefix(s, d, id, RECEIPT, b, k);
    } else {
      AtomicPrefix(s, d, id, RECEIPT, b, 3);
      ApplyNext(d, steps, 3);
      RenameReceiptStep(s, ApplyAll(d, steps[..3]), id, b);
      AckDiskTail(s, d, id, b, k, steps);
    }
  }

  lemma AckDiskTail(s: Shape, d: Disk, id: Identity, b: Blob, k: nat, steps: seq<Step>)
    requires 0 <= Acked(s.rb) && 4 <= k <= 7 && steps == AckSteps(b, RecordName(Acked(s.rb) + 1))
    requires b.ReceiptBlob? && b.receipt.sequence == Acked(s.rb) + 1
    requires Explains(AckShape(s, b, 4), ApplyAll(d, steps[..4]), id) && TMP !in ApplyAll(d, steps[..4]).cache
    ensures var e := ApplyAll(d, steps[..k]);
            Explains(AckShape(s, b, k), e, id) && (k == 7 ==> TMP !in e.cache)
  {
    hide Explains, RecordName, Bytes;
    var i := Acked(s.rb) + 1;
    if k > 4 {
      ApplyNext(d, steps, 4);
      SyncDirStep(AckShape(s, b, 4), ApplyAll(d, steps[..4]), id);
    }
    if k > 5 {
      ApplyNext(d, steps, 5);
      UnlinkStep(AckShape(s, b, 5), ApplyAll(d, steps[..5]), id, i);
      assert AckShape(s, b, 5).keep - {i} == {};
    }
    if k > 6 {
      ApplyNext(d, steps, 6);
      SyncDirStep(AckShape(s, b, 6), ApplyAll(d, steps[..6]), id);
      Trimmed(Synced(AckShape(s, b, 6)), ApplyAll(d, steps[..7]), id);
    }
  }

  /** An acknowledgement that passes its checks names the first pending record exactly. */
  lemma AckFirstFacts(w: World, id: Identity, s: Shape, b: Blob)
    requires Holds(w, id, s) && w.up && AckOf(w.q, View(w.disk), id, b).AckFirst?
    ensures Confirmed(b, id) && 0 <= Acked(s.rb) == b.receipt.sequence - 1 && Acked(s.rb) < |s.log|
    ensures AckOf(w.q, View(w.disk), id, b).wire == s.log[Acked(s.rb)] && ReceiptFor(b.receipt, s.log[Acked(s.rb)])
    ensures w.q.files != [] && w.q.files[0] == RecordName(Acked(s.rb) + 1) && !w.q.failed && s.keep == {} && Mirror(w.q, s)
  {
    hide RecordName, Bytes, Laid, Chain, Covers, Kept, Marked, View, Lookup, Inspected, ParseRecordName;
    var a := Acked(s.rb);
    assert w.q.files == NamesOf(Range(a, |s.log|)) && |w.q.files| == |s.log| - a;
    RecordReadable(w.disk, id, s.log, s.keep, s.rb, a + 1);
    assert w.q.files[0] == RecordName(Range(a, |s.log|)[0]);
  }

  lemma MirrorAcked(q: State, s: Shape, t: Shape, b: Blob)
    requires 0 <= Acked(s.rb) < |s.log| && Mirror(q, s) && b.ReceiptBlob? && b.receipt.sequence == Acked(s.rb) + 1
    requires t.log == s.log && t.rb == Some(b) && q.files != []
    ensures Mirror(q.(receipt := Some(b.receipt), bytes := q.bytes - s.log[Acked(s.rb)].size, files := q.files[1..]), t)
  {
    hide RecordName, NamesOf, Bytes, TailHash, Range;
    var a, n := Acked(s.rb), |s.log|;
    BytesHead(s.log, a, n);
    NamesTail(a, n);
  }

  lemma NamesTail(a: nat, n: nat)
    requires a < n
    ensures NamesOf(Range(a, n)) != [] && NamesOf(Range(a, n))[1..] == NamesOf(Range(a + 1, n))
  {
    hide RecordName;
    var x, y := NamesOf(Range(a, n)), NamesOf(Range(a + 1, n));
    assert |x| == n - a && |y| == n - a - 1;
    assert forall k :: 0 <= k < |y| ==> x[1..][k] == y[k];
  }

  lemma KeptAcked(w: World, w': World, s: Shape, b: Blob, k: nat)
    requires Kept(w, s) && s.dlen <= |s.log| && 0 <= Acked(s.rb) < |s.log| && b.ReceiptBlob? && b.receipt.sequence == Acked(s.rb) + 1
    requires ReceiptFor(b.receipt, s.log[Acked(s.rb)])
    requires w'.accepted == w.accepted && w'.tail == w.tail && w'.orderly == w.orderly && w'.verified == w.verified + [b.receipt]
    ensures Kept(w', AckShape(s, b, k))
  {
    forall x | VerifiedFor(w.verified, x) ensures VerifiedFor(w'.verified, x) {
      var r :| r in w.verified && ReceiptFor(r, x);
      assert r in w'.verified;
    }
    assert VerifiedFor(w'.verified, s.log[Acked(s.rb)]) by {
      assert b.receipt in w'.verified;
    }
    hide VerifiedFor;
  }

  lemma AckHolds(w: World, id: Identity, s: Shape, b: Blob, o: Outcome)
    requires Holds(w, id, s) && w.up && AckOf(w.q, View(w.disk), id, b).AckFirst? && o.done <= 7
    ensures 0 <= Acked(s.rb) && Holds(Advance(w, id, AckEvent(b, o)), id, AckShape(s, b, o.done))
  {
    hide Explains, RecordName, Bytes, NamesOf, Kept, Mirror, VerifiedFor, AckOf, Confirmed, ReceiptFor, ApplyAll, View;
    AckedBounds(s, w.disk, id);
    AckFirstFacts(w, id, s, b);
    assert b.ReceiptBlob? by { ConfirmedReceipt(b, id); }
    AckDisk(s, w.disk, id, b, o.done);
    MirrorAcked(w.q, s, AckShape(s, b, 7), b);
    KeptAcked(w, Advance(w, id, AckEvent(b, o)), s, b, o.done);
  }

  lemma ConfirmedReceipt(b: Blob, id: Identity)
    requires Confirmed(b, id)
    ensures b.ReceiptBlob?
  {
  }

  // ----- recovery -----

  ghost function RemovalShape(s: Shape, ks: seq<nat>, k: nat): Shape {
    if k <= |ks| then s.(keep := s.keep - set i | i in ks[..k]) else Synced(s.(keep := s.keep - set i | i in ks))
  }

  lemma RemovalStepAt(names: seq<string>, k: nat)
    requires k < |names|
    ensures RemovalSteps(names)[k] == Unlink(names[k]) && |RemovalSteps(names)| == |names| + 1 && RemovalSteps(names)[|names|] == SyncDir
  {
  }

  lemma RemovalOf(ks: seq<nat>, k: nat)
    requires 0 < k <= |RemovalSteps(NamesOf(ks))|
    ensures k <= |ks| + 1 && RemovalSteps(NamesOf(ks))[k - 1] == if k <= |ks| then Unlink(RecordName(ks[k - 1])) else SyncDir
  {
    hide RecordName;
  }

  lemma RemovalShapeStep(s: Shape, ks: seq<nat>, k: nat)
    requires (forall i :: i in ks ==> i in s.keep) && (forall i, j :: 0 <= i < j < |ks| ==> ks[i] < ks[j])
    ensures RemovalShape(s, ks, 0) == s
    ensures 0 < k <= |ks| ==> var before := RemovalShape(s, ks, k - 1);
              ks[k - 1] in before.keep && RemovalShape(s, ks, k) == before.(keep := before.keep - {ks[k - 1]})
    ensures RemovalShape(s, ks, |ks| + 1) == Synced(RemovalShape(s, ks, |ks|))
  {
    assert ks[..|ks|] == ks;
    if 0 < k <= |ks| {
      assert ks[k - 1] in ks && ks[k - 1] !in ks[..k - 1];
      assert ks[..k] == ks[..k - 1] + [ks[k - 1]];
    }
  }

  lemma {:induction false} RemovalDisk(s: Shape, d: Disk, id: Identity, ks: seq<nat>, k: nat)
    requires Explains(s, d, id) && k <= |RemovalSteps(NamesOf(ks))|
    requires (forall i :: i in ks ==> i in s.keep) && (forall i, j :: 0 <= i < j < |ks| ==> ks[i] < ks[j])
    ensures Explains(RemovalShape(s, ks, k), ApplyAll(d, RemovalSteps(NamesOf(ks))[..k]), id)
    ensures TMP !in d.cache ==> TMP !in ApplyAll(d, RemovalSteps(NamesOf(ks))[..k]).cache
  {
    hide Explains, RecordName, RemovalShape, RemovalSteps, NamesOf, ApplyAll;
    RemovalShapeStep(s, ks, k);
    var steps := RemovalSteps(NamesOf(ks));
    ApplyNone(d, steps);
    if k > 0 {
      RemovalOf(ks, k);
      RemovalDisk(s, d, id, ks, k - 1);
      ApplyNext(d, steps, k - 1);
      var before := RemovalShape(s, ks, k - 1);
      if k <= |ks| {
        UnlinkStep(before, ApplyAll(d, steps[..k - 1]), id, ks[k - 1]);
      } else {
        SyncDirStep(before, ApplyAll(d, steps[..k - 1]), id);
      }
    }
  }

  lemma KeptReshaped(w: World, w': World, s: Shape, t: Shape)
    requires Kept(w, s) && t.log == s.log && t.rb == s.rb && s.dlen <= t.dlen <= |t.log|
    requires w'.accepted == w.accepted && w'.tail == w.tail && w'.verified == w.verified && w'.orderly == w.orderly
    ensures Kept(w', t)
  {
    hide VerifiedFor;
  }

  lemma SoundOf(s: Shape, d: Disk, id: Identity)
    requires Explains(s, d, id) && id.Valid()
    ensures Sound(d, id, s.log, s.keep, s.rb, s.lo)
  {
    hide Laid, Covers, Chain, Bytes;
    assert forall i :: i in s.keep ==> i in s.keep + s.dkeep;
  }

  lemma RecoverHolds(w: World, id: Identity, s: Shape, names: seq<string>, o: Outcome)
    requires Holds(w, id, s) && !w.up && IsDirectory(names, w.disk) && id.Valid()
    ensures Inv(Advance(w, id, RecoverEvent(names, o)), id)
  {
    hide Explains, RecordName, Bytes, NamesOf, Kept, VerifiedFor, ApplyAll, View, Checked, Sort, IsDirectory, Sound, TailHash;
    AckedBounds(s, w.disk, id);
    if TMP in w.disk.cache {
      TemporaryRejected(names, w.disk, id);
      assert Holds(Advance(w, id, RecoverEvent(names, o)), id, s);
    } else {
      SoundOf(s, w.disk, id);
      RecoversSuffix(names, w.disk, id, s.log, s.keep, s.rb, s.lo);
      SuffixHolds(w, id, s, names, o);
    }
  }

  lemma SuffixHolds(w: World, id: Identity, s: Shape, names: seq<string>, o: Outcome)
    requires Holds(w, id, s) && !w.up && TMP !in w.disk.cache && 0 <= Acked(s.rb) <= |s.log| && s.dlen <= |s.log|
    requires IsDirectory(names, w.disk)
    requires Checked(Sort(names), View(w.disk), id) == Some((Suffix(s.log, s.rb), NamesOf(Ordered(s.keep))))
    ensures Inv(Advance(w, id, RecoverEvent(names, o)), id)
  {
    hide Explains, RecordName, NamesOf, Kept, ApplyAll, View, Checked, Sort, RemovalSteps, RemovalShape, Mirror, Suffix, MarkerLast, IsDirectory;
    SuffixMirrors(s);
    var w' := Advance(w, id, RecoverEvent(names, o));
    var ks := Ordered(s.keep);
    var steps := RemovalSteps(NamesOf(ks));
    if o.done <= |steps| {
      RemovalDisk(s, w.disk, id, ks, o.done);
      var t := RemovalShape(s, ks, o.done);
      RemovalDone(s, ks, o.done);
      KeptReshaped(w, w', s, t);
      assert Holds(w', id, t);
    } else {
      KeptReshaped(w, w', s, s);
      assert Holds(w', id, s);
    }
  }

  lemma SuffixMirrors(s: Shape)
    requires 0 <= Acked(s.rb) <= |s.log|
    ensures var q := Suffix(s.log, s.rb); !q.hasKey
    ensures forall t: Shape :: t.log == s.log && t.rb == s.rb ==> Mirror(Suffix(s.log, s.rb), t)
  {
    hide NamesOf, Bytes, TailHash;
  }

  lemma RemovalDone(s: Shape, ks: seq<nat>, k: nat)
    requires ks == Ordered(s.keep) && k <= |RemovalSteps(NamesOf(ks))| && s.dlen <= |s.log|
    ensures k == |RemovalSteps(NamesOf(ks))| ==> RemovalShape(s, ks, k).keep == {}
    ensures var t := RemovalShape(s, ks, k); t.log == s.log && t.rb == s.rb && s.dlen <= t.dlen <= |t.log|
  {
    hide RecordName, NamesOf;
    assert ks[..|ks|] == ks;
    assert forall i :: i in s.keep ==> i in ks;
  }

  // ----- loss of power -----

  lemma KeptImage(w: World, w': World, s: Shape, img: map<string, Blob>, n: nat)
    requires Kept(w, s) && s.dlen <= n <= |s.log|
    requires w'.accepted == w.accepted && w'.tail == w.tail && w'.verified == w.verified && (w'.orderly ==> w.orderly)
    requires Acked(ImageReceipt(img)) <= Acked(s.rb)
    ensures Kept(w', ImageShape(s, img, n))
  {
    hide VerifiedFor, RecordName;
  }

  /** Above the visible receipt every durable record survives, so a cut below it leaves none. */
  lemma CutBelowReceipt(s: Shape, d: Disk, id: Identity, img: map<string, Blob>, m: nat)
    requires Explains(s, d, id) && IsImage(d, img) && m <= Acked(s.rb) && CutAt(img, |s.log|, m)
    ensures s.dlen <= Acked(s.rb)
  {
    hide RecordName, Laid, IsImage, Covers, Chain, Bytes;
    ImageRecords(s, d, id, img);
    assert Acked(s.rb) < s.dlen ==> RecordName(s.dlen) in img;
  }

  lemma KeptCut(w: World, w': World, s: Shape, img: map<string, Blob>, m: nat)
    requires Kept(w, s) && 1 <= m <= Acked(s.rb) <= |s.log| && s.dlen <= Acked(s.rb)
    requires Acked(ImageReceipt(img)) <= Acked(s.rb)
    requires w'.accepted == w.accepted && w'.tail == w.tail && w'.verified == w.verified && !w'.orderly
    ensures Kept(w', ImageShape(s, img, m - 1))
  {
    hide VerifiedFor, RecordName;
  }

  lemma CutPositive(img: map<string, Blob>, top: nat, m: nat)
    requires CutAt(img, top, m)
    ensures m >= 1
  {
  }

  lemma PowerHolds(w: World, id: Identity, s: Shape, img: map<string, Blob>)
    requires Holds(w, id, s) && IsImage(w.disk, img)
    ensures Inv(Advance(w, id, PowerEvent(img)), id)
  {
    hide Explains, RecordName, Kept, VerifiedFor, IsImage, Exposed, Refused, CutAt;
    var w' := Advance(w, id, PowerEvent(img));
    AckedBounds(s, w.disk, id);
    ImageFixed(s, w.disk, id, img);
    var n := ImageLength(s, img);
    if !Exposed(w.disk) {
      PowerLoss(s, w.disk, id, img);
      KeptImage(w, w', s, img, n);
      assert Holds(w', id, ImageShape(s, img, n));
    } else {
      PowerLossExposed(s, w.disk, id, img);
      if Explains(ImageShape(s, img, n), Settled(img), id) {
        KeptImage(w, w', s, img, n);
        assert Holds(w', id, ImageShape(s, img, n));
      } else if m: nat :| Cut(s, w.disk, id, img, m) {
        CutBelowReceipt(s, w.disk, id, img, m);
        assert m >= 1 by { CutPositive(img, |s.log|, m); }
        KeptCut(w, w', s, img, m);
        assert Holds(w', id, ImageShape(s, img, m - 1));
      }
    }
  }

  lemma DeadStays(w: World, id: Identity, e: Event)
    requires Dead(w, id)
    ensures Dead(Advance(w, id, e), id)
  {
    hide Checked, Sort, Exposed, ApplyAll;
    var img :| w.disk == Settled(img);
    if e.PowerEvent? && IsImage(w.disk, e.image) {
      assert e.image == img;
    }
  }

  // ----- every run -----

  lemma {:induction false} StepInv(w: World, id: Identity, e: Event)
    requires Inv(w, id) && id.Valid()
    ensures Inv(Advance(w, id, e), id)
  {
    hide Explains, RecordName, Kept, VerifiedFor, IsImage, Exposed, Refused, Accepts, Mirror, ApplyAll, AckOf, View, Checked, Sort, IsDirectory;
    var w' := Advance(w, id, e);
    if Dead(w, id) {
      DeadStays(w, id, e);
    } else {
      var s :| Holds(w, id, s);
      AckedBounds(s, w.disk, id);
      match e
      case AppendEvent(d, o) =>
        if w.up && Appendable(w.q, d) && Accepts(w.q, id, d).Some? && o.done <= 5 {
          AcceptedWire(w, id, s, w.q, d);
          StoredHolds(w, id, s, w.q, d, o);
        } else {
          assert w' == w;
        }
      case FinishEvent(rid, size, o) =>
        FinishHolds(w, id, s, rid, size, o);
      case AckEvent(b, o) =>
        if w.up && AckOf(w.q, View(w.disk), id, b).AckFirst? && o.done <= 7 {
          AckHolds(w, id, s, b, o);
        } else {
          IdleAck(w, id, s, b, o);
        }
      case PowerEvent(img) =>
        if IsImage(w.disk, img) { PowerHolds(w, id, s, img); }
      case RecoverEvent(names, o) =>
        if !w.up && IsDirectory(names, w.disk) { RecoverHolds(w, id, s, names, o); }
      case _ =>
        LatchHolds(w, id, s, e);
    }
  }

  lemma FinishHolds(w: World, id: Identity, s: Shape, rid: Id, size: nat, o: Outcome)
    requires Holds(w, id, s)
    ensures Inv(Advance(w, id, FinishEvent(rid, size, o)), id)
  {
    hide Explains, RecordName, Kept, VerifiedFor, Accepts, ApplyAll, Mirror;
    AckedBounds(s, w.disk, id);
    var q, d := w.q.(finished := true), CleanupDraft(rid, size);
    var w' := Advance(w, id, FinishEvent(rid, size, o));
    if w.up && Finishable(w.q) {
      if Accepts(q, id, d).Some? && o.done <= 5 {
        AcceptedWire(w, id, s, q, d);
        StoredHolds(w, id, s, q, d, o);
      } else {
        assert w' == w.(q := q);
        KeptReshaped(w, w', s, s);
        FinishedMirror(w.q, s);
        assert Holds(w', id, s);
      }
    } else {
      assert w' == w;
    }
  }

  lemma FinishedMirror(q: State, s: Shape)
    requires 0 <= Acked(s.rb) <= |s.log|
    ensures Mirror(q, s) <==> Mirror(q.(finished := true), s)
    ensures Mirror(q, s) <==> Mirror(q.(frozen := true), s)
    ensures Mirror(q, s) <==> Mirror(q.(claimed := true), s)
    ensures Mirror(q, s) <==> Mirror(q.(closed := true, hasKey := false), s)
  {
  }

  lemma IdleAck(w: World, id: Identity, s: Shape, b: Blob, o: Outcome)
    requires Holds(w, id, s) && (!w.up || !AckOf(w.q, View(w.disk), id, b).AckFirst? || o.done > 7)
    ensures Inv(Advance(w, id, AckEvent(b, o)), id)
  {
    hide Explains, RecordName, ApplyAll, Mirror, AckOf, View;
    AckedBounds(s, w.disk, id);
    var w' := Advance(w, id, AckEvent(b, o));
    assert w' == w.(verified := w'.verified) && w.verified <= w'.verified;
    assert Kept(w', s) by {
      forall x | VerifiedFor(w.verified, x) ensures VerifiedFor(w'.verified, x) {
        var r :| r in w.verified && ReceiptFor(r, x);
        assert r in w'.verified;
      }
    }
    assert Holds(w', id, s);
  }

  lemma LatchHolds(w: World, id: Identity, s: Shape, e: Event)
    requires Holds(w, id, s) && (e.FreezeEvent? || e.ClaimEvent? || e.CloseEvent? || e.RestartEvent?)
    ensures Inv(Advance(w, id, e), id)
  {
    hide Explains, RecordName, Kept, VerifiedFor, Mirror;
    AckedBounds(s, w.disk, id);
    FinishedMirror(w.q, s);
    KeptReshaped(w, Advance(w, id, e), s, s);
    assert Holds(Advance(w, id, e), id, s);
  }

  lemma {:induction false} RunInv(id: Identity, events: seq<Event>)
    requires id.Valid()
    ensures Inv(Run(Created(id), id, events), id)
  {
    if events == [] {
      CreatedHolds(id);
    } else {
      RunInv(id, events[..|events| - 1]);
      StepInv(Run(Created(id), id, events[..|events| - 1]), id, events[|events| - 1]);
    }
  }

  /** The queue holds exactly the records after a receipt of a chained log that keeps everything accepted. */
  ghost predicate Exactly(q: State, view: map<string, Blob>, w: World, id: Identity, log: seq<Wire>, a: nat) {
    // the log: chained, with at most the one failed append beyond those reported as done, the marker last
    && Chain(id, log) && a <= |log| <= |w.accepted| + 1 && MarkerLast(log)
    && (forall i :: 0 <= i < |log| && i < |w.accepted| ==> log[i] == w.accepted[i])
    && (|log| == |w.accepted| + 1 ==> w.tail == Some(log[|w.accepted|]))
    // the queue: the suffix after the receipt, each file readable as its record
    && q.files == NamesOf(Range(a, |log|)) && q.sequence == |log| && q.hash == TailHash(log, |log|)
    && q.bytes == Bytes(log, a, |log|) && (forall i :: a < i <= |log| ==> WireAt(view, RecordName(i), id) == Some(log[i - 1]))
    && (if a == 0 then q.receipt == None else q.receipt.Some? && ReceiptFor(q.receipt.value, log[a - 1]))
    // nothing reported as appended is lost: it is pending, or its exact receipt was verified
    && (forall i :: 0 <= i < |w.accepted| ==> a <= i < |log| || VerifiedFor(w.verified, w.accepted[i]))
    && (w.orderly ==> |w.accepted| <= |log|)
  }

  lemma ExactlyFrom(q: State, w: World, id: Identity, s: Shape)
    requires Explains(s, w.disk, id) && Kept(w, s) && MarkerLast(s.log)
    requires 0 <= Acked(s.rb) <= |s.log| && Mirror(q, s)
    ensures Exactly(q, View(w.disk), w, id, s.log, Acked(s.rb))
  {
    hide RecordName, NamesOf, Bytes, VerifiedFor, View, WireAt, Laid, Chain, MarkerLast, Readable, Covers;
    forall i | Acked(s.rb) < i <= |s.log| ensures WireAt(View(w.disk), RecordName(i), id) == Some(s.log[i - 1]) {
      RecordReadable(w.disk, id, s.log, s.keep, s.rb, i);
      WireOfReadable(View(w.disk), id, s.log, i);
    }
    CoveredReceipt(s.rb, id, s.log);
    LostOrPending(w, s);
  }

  lemma WireOfReadable(view: map<string, Blob>, id: Identity, log: seq<Wire>, i: nat)
    requires Readable(view, id, log, i) && 1 <= i <= |log|
    ensures WireAt(view, RecordName(i), id) == Some(log[i - 1])
  {
    hide RecordName;
  }

  lemma CoveredReceipt(rb: Option<Blob>, id: Identity, log: seq<Wire>)
    requires Covers(rb, id, log) && 0 <= Acked(rb) <= |log|
    ensures if Acked(rb) == 0 then ReceiptIn(rb) == None else ReceiptIn(rb).Some? && ReceiptFor(ReceiptIn(rb).value, log[Acked(rb) - 1])
  {
  }

  lemma LostOrPending(w: World, s: Shape)
    requires Kept(w, s) && 0 <= Acked(s.rb) <= |s.log|
    ensures forall i :: 0 <= i < |w.accepted| ==> Acked(s.rb) <= i < |s.log| || VerifiedFor(w.verified, w.accepted[i])
    ensures w.orderly ==> |w.accepted| <= s.dlen
  {
    hide VerifiedFor;
    forall i | 0 <= i < |w.accepted| ensures Acked(s.rb) <= i < |s.log| || VerifiedFor(w.verified, w.accepted[i]) {
      if i < |s.log| && i < Acked(s.rb) { assert VerifiedFor(w.verified, s.log[i]); }
    }
  }

  lemma RecoversExactly(w: World, id: Identity, names: seq<string>, o: Outcome)
    requires Inv(w, id) && id.Valid() && !w.up && IsDirectory(names, w.disk) && RecoverSucceeds(names, w.disk, id, o)
    ensures exists log, a :: Exactly(Checked(Sort(names), View(w.disk), id).value.0, View(w.disk), w, id, log, a)
  {
    hide Explains, RecordName, NamesOf, Bytes, VerifiedFor, View, Laid, Kept, Sort, Exactly, Checked, IsDirectory;
    var s :| Holds(w, id, s);
    AckedBounds(s, w.disk, id);
    if TMP in w.disk.cache { TemporaryRejected(names, w.disk, id); }
    SoundOf(s, w.disk, id);
    RecoversSuffix(names, w.disk, id, s.log, s.keep, s.rb, s.lo);
    ExactlyFrom(Suffix(s.log, s.rb), w, id, s);
  }

  /** Every recovery that succeeds, after any run, reads exactly the suffix after the receipt. */
  lemma {:induction false} RecoveryIsExact(id: Identity, events: seq<Event>, names: seq<string>, o: Outcome)
    requires id.Valid()
    requires var w := Run(Created(id), id, events); !w.up && IsDirectory(names, w.disk) && RecoverSucceeds(names, w.disk, id, o)
    ensures var w := Run(Created(id), id, events);
            exists log, a :: Exactly(Checked(Sort(names), View(w.disk), id).value.0, View(w.disk), w, id, log, a)
  {
    hide *;
    RunInv(id, events);
    RecoversExactly(Run(Created(id), id, events), id, names, o);
  }

  /** In an orderly run the directory always passes recovery's checks and limits, unless a temporary file is left over. */
  lemma {:induction false} RecoveryIffNoTemporary(id: Identity, events: seq<Event>, names: seq<string>)
    requires id.Valid()
    requires var w := Run(Created(id), id, events); w.orderly && IsDirectory(names, w.disk)
    ensures var w := Run(Created(id), id, events);
            Checked(Sort(names), View(w.disk), id).Some? <==> TMP !in w.disk.cache
  {
    hide Explains, RecordName, View, Sort, Checked, IsDirectory;
    var w := Run(Created(id), id, events);
    RunInv(id, events);
    var s :| Holds(w, id, s);
    if TMP in w.disk.cache {
      TemporaryRejected(names, w.disk, id);
    } else {
      SoundOf(s, w.disk, id);
      RecoversSuffix(names, w.disk, id, s.log, s.keep, s.rb, s.lo);
    }
  }

  /** A running queue delivers the record after its receipt, and its directory never contradicts it. */
  lemma {:induction false} DeliversInOrder(id: Identity, events: seq<Event>)
    requires id.Valid()
    requires var w := Run(Created(id), id, events); w.up && !w.q.failed && !w.q.closed
    ensures var w := Run(Created(id), id, events);
            exists log: seq<Wire>, a: nat :: Exactly(w.q, View(w.disk), w, id, log, a) &&
              Next(w.q, View(w.disk), id) == if a == |log| then NoRecord else NextWire(log[a])
  {
    hide Explains, RecordName, NamesOf, Bytes, VerifiedFor, View, Kept, WireAt, Exactly, Next;
    var w := Run(Created(id), id, events);
    RunInv(id, events);
    var s :| Holds(w, id, s);
    AckedBounds(s, w.disk, id);
    ExactlyFrom(w.q, w, id, s);
    NextOfExactly(w, id, s.log, Acked(s.rb));
  }

  lemma NextOfExactly(w: World, id: Identity, log: seq<Wire>, a: nat)
    requires Exactly(w.q, View(w.disk), w, id, log, a) && !w.q.failed && !w.q.closed
    ensures Next(w.q, View(w.disk), id) == if a == |log| then NoRecord else NextWire(log[a])
  {
    hide RecordName, Bytes, VerifiedFor, View, WireAt, Inspected, MarkerLast, Chain, NamesOf;
    if a < |log| {
      ChainAt(id, log, a);
      if a > 0 { ChainAt(id, log, a - 1); }
      FirstFile(log, a);
      hide Range;
      assert WireAt(View(w.disk), RecordName(a + 1), id) == Some(log[a]);
      assert AckedThrough(w.q) == a && ReceiptHash(w.q.receipt) == TailHash(log, a);
    }
  }

  lemma ChainAt(id: Identity, log: seq<Wire>, i: nat)
    requires Chain(id, log) && i < |log|
    ensures log[i].header.sequence == i + 1 && log[i].header.previous == TailHash(log, i)
  {
    hide Inspected;
  }

  lemma FirstFile(log: seq<Wire>, a: nat)
    requires a < |log|
    ensures var names := NamesOf(Range(a, |log|)); names != [] && names[0] == RecordName(a + 1)
  {
    hide RecordName;
    assert Range(a, |log|)[0] == a + 1;
  }

  /** A producer that is ready has room: its next well-formed record is accepted, whatever the run was. */
  lemma {:induction false} ReadyAccepts(id: Identity, events: seq<Event>, d: Draft)
    requires id.Valid()
    requires var w := Run(Created(id), id, events); w.up && ProducerReady(w.q, id, id.binding, id.source, id.confirmation)
    requires d.wellFormed && 64 < d.size <= MAX_WIRE && (d.bound.Some? ==> d.bound.value == id.binding) && !d.payload.RuntimeCleanup?
    ensures var w := Run(Created(id), id, events);
            w.q.sequence < MAX_INT64 - 1 ==> Appendable(w.q, d) && Accepts(w.q, id, d).Some?
  {
    hide Explains, RecordName, NamesOf, Bytes, Kept;
    RunInv(id, events);
    var w := Run(Created(id), id, events);
    var s :| Holds(w, id, s);
  }
}
