/**
  The pending queue: a bounded, hash-chained store with append, signed
  acknowledgement, freeze, one terminal marker and recovery.

  `State` and the functions over it say what each operation does to the queue
  and to its directory, for every outcome that its file-system calls can have.
 */
module PendingSpec {
  import opened Basics
  import opened PendingNames
  import opened SortedNames
  import opened PendingStore

  datatype State = State(
    files: seq<string>, bytes: int, sequence: int, hash: Hash, receipt: Option<Receipt>,
    failed: bool, frozen: bool, closed: bool, claimed: bool, finished: bool, hasKey: bool)

  function Fresh(): State {
    State([], 0, 0, ZeroHash, None, false, false, false, false, false, true)
  }

  /** A record as a producer hands it over; id and sealed size come from the environment. */
  datatype Draft = Draft(payload: Payload, bound: Option<Binding>, recordId: Id, size: nat, wellFormed: bool)

  function AckedThrough(q: State): int {
    if q.receipt.Some? then q.receipt.value.sequence else 0
  }

  function ReceiptHash(r: Option<Receipt>): Hash {
    if r.Some? then r.value.wireHash else ZeroHash
  }

  // ----- reading -----

  function Lookup(view: map<string, Blob>, name: string, max: nat): Option<Blob> {
    if name in view && Size(view[name]) <= max then Some(view[name]) else None
  }

  function WireAt(view: map<string, Blob>, name: string, id: Identity): Option<Wire> {
    var b := Lookup(view, name, MAX_WIRE);
    if b.Some? && b.value.WireBlob? && Inspected(b.value.wire, id) then Some(b.value.wire) else None
  }

  // ----- append -----

  function Sealed(q: State, id: Identity, d: Draft): Option<Wire> {
    var h := Header(id.binding, d.recordId, q.sequence + 1, q.hash);
    if q.hasKey && d.wellFormed && ValidHeader(h) && 64 < d.size <= MAX_WIRE
    then Some(Wire(h, d.payload, id.source, d.size)) else None
  }

  /** The wire that an append would store, or None when it is refused before any write. */
  function Accepts(q: State, id: Identity, d: Draft): Option<Wire> {
    if q.closed || q.failed || |q.files| >= id.limits.maxRecords then None
    else if d.bound.Some? && d.bound.value != id.binding then None
    else
      var w := Sealed(q, id, d);
      if w.None? || q.bytes + w.value.size + RESERVED > id.limits.maxBytes then None else w
  }

  function AppendSteps(w: Wire): seq<Step>
    requires ValidHeader(w.header)
  {
    AtomicSteps(RecordName(w.header.sequence), WireBlob(w))
  }

  function Appended(q: State, w: Wire): State
    requires ValidHeader(w.header)
  {
    q.(files := q.files + [RecordName(w.header.sequence)], bytes := q.bytes + w.size,
       sequence := w.header.sequence, hash := HashOf(w))
  }

  /** `done` of the five steps took effect; the caller sees success only if all did and none reported an error. */
  datatype Outcome = Outcome(done: nat, ok: bool)

  predicate AppendSucceeds(q: State, id: Identity, d: Draft, o: Outcome) {
    Accepts(q, id, d).Some? && o.ok && o.done == 5
  }

  function Stored(q: State, disk: Disk, id: Identity, d: Draft, o: Outcome): (State, Disk) {
    var w := Accepts(q, id, d);
    if w.None? || o.done > 5 then (q, disk)
    else (if o.ok && o.done == 5 then Appended(q, w.value) else q.(failed := true),
          ApplyAll(disk, AppendSteps(w.value)[..o.done]))
  }

  predicate Appendable(q: State, d: Draft) {
    !q.frozen && !d.payload.RuntimeCleanup?
  }

  function Append(q: State, disk: Disk, id: Identity, d: Draft, o: Outcome): (State, Disk) {
    if Appendable(q, d) then Stored(q, disk, id, d, o) else (q, disk)
  }

  predicate Finishable(q: State) {
    q.frozen && q.claimed && !q.finished && q.hasKey
  }

  function CleanupDraft(recordId: Id, size: nat): Draft {
    Draft(RuntimeCleanup, None, recordId, size, true)
  }

  function Finish(q: State, disk: Disk, id: Identity, recordId: Id, size: nat, o: Outcome): (State, Disk) {
    if Finishable(q) then Stored(q.(finished := true), disk, id, CleanupDraft(recordId, size), o) else (q, disk)
  }

  // ----- acknowledgement -----

  function AckSteps(b: Blob, name: string): seq<Step> {
    AtomicSteps(RECEIPT, b) + [Unlink(name), SyncDir]
  }

  datatype AckCase = AckRefused | AckDuplicate | AckFirst(wire: Wire)

  function AckOf(q: State, view: map<string, Blob>, id: Identity, b: Blob): AckCase {
    if q.closed || q.failed || !Confirmed(b, id) then AckRefused
    else if q.receipt == Some(b.receipt) then AckDuplicate
    else if q.files == [] || b.receipt.sequence != AckedThrough(q) + 1 then AckRefused
    else
      var w := WireAt(view, q.files[0], id);
      if w.Some? && w.value.header.recordId == b.receipt.recordId && w.value.header.sequence == b.receipt.sequence &&
         HashOf(w.value) == b.receipt.wireHash
      then AckFirst(w.value) else AckRefused
  }

  /** The caller is told of success: for a repetition, and for a first receipt if every step took effect. */
  predicate AckSucceeds(q: State, view: map<string, Blob>, id: Identity, b: Blob, o: Outcome) {
    var c := AckOf(q, view, id, b);
    c.AckDuplicate? || (c.AckFirst? && o == Outcome(7, true))
  }

  function Acknowledge(q: State, disk: Disk, id: Identity, b: Blob, o: Outcome): (State, Disk) {
    var c := AckOf(q, View(disk), id, b);
    if !c.AckFirst? || o.done > 7 then (q, disk)
    else if q.files == [] || !b.ReceiptBlob? then (q, disk)
    else (if o.ok && o.done == 7
          then q.(receipt := Some(b.receipt), bytes := q.bytes - c.wire.size, files := q.files[1..])
          else q.(failed := true),
          ApplyAll(disk, AckSteps(b, q.files[0])[..o.done]))
  }

  // ----- delivery and producer checks -----

  datatype NextCase = NoRecord | NextWire(wire: Wire) | NextBroken | NextRefused

  function Next(q: State, view: map<string, Blob>, id: Identity): NextCase {
    if q.closed || q.failed then NextRefused
    else if q.files == [] then NoRecord
    else
      var w := WireAt(view, q.files[0], id);
      if w.Some? && w.value.header.sequence == AckedThrough(q) + 1 && w.value.header.previous == ReceiptHash(q.receipt)
      then NextWire(w.value) else NextBroken
  }

  predicate ProducerReady(q: State, id: Identity, binding: Binding, source: Key, confirmation: Key) {
    && !q.closed && !q.failed && !q.frozen && q.hasKey
    && id.binding == binding && id.source == source && id.confirmation == confirmation
    && |q.files| < id.limits.maxRecords && q.bytes + RESERVED + MAX_WIRE <= id.limits.maxBytes
  }

  /** A ready producer's next well-formed record is never refused: there is room for the largest one. */
  lemma {:induction false} ReadyHasRoom(q: State, id: Identity, d: Draft)
    requires ProducerReady(q, id, id.binding, id.source, id.confirmation)
    requires d.wellFormed && 64 < d.size <= MAX_WIRE && (d.bound.Some? ==> d.bound.value == id.binding)
    requires !d.payload.RuntimeCleanup?
    requires 0 <= q.sequence < MAX_INT64 - 1 && (q.sequence == 0 ==> q.hash == ZeroHash)
    ensures Appendable(q, d) && Accepts(q, id, d).Some?
  {
  }

  // ----- recovery -----

  datatype Scan = Scan(files: seq<string>, bytes: int, sequence: int, hash: Hash, acknowledged: seq<string>)

  function PhysicalBytes(names: seq<string>, view: map<string, Blob>): nat {
    if names == [] then 0
    else
      var last := names[|names| - 1];
      PhysicalBytes(names[..|names| - 1], view) + (if last in view then Size(view[last]) else 0)
  }

  function ScanName(s: Scan, name: string, view: map<string, Blob>, id: Identity, r: Option<Receipt>): Option<Scan> {
    if name == IDENTITY || name == RECEIPT || name == LOCK then Some(s)
    else
      var sequence := ParseRecordName(name);
      var w := WireAt(view, name, id);
      if sequence.None? || w.None? || w.value.header.sequence != sequence.value then None
      else if r.Some? && sequence.value <= r.value.sequence then
        if sequence.value == r.value.sequence && (w.value.header.recordId != r.value.recordId || HashOf(w.value) != r.value.wireHash)
        then None
        else Some(s.(acknowledged := s.acknowledged + [name]))
      else if sequence.value != s.sequence + 1 || w.value.header.previous != s.hash then None
      else Some(s.(files := s.files + [name], bytes := s.bytes + w.value.size, sequence := sequence.value, hash := HashOf(w.value)))
  }

  function ScanStart(r: Option<Receipt>): Scan {
    Scan([], 0, if r.Some? then r.value.sequence else 0, ReceiptHash(r), [])
  }

  function ScanAll(names: seq<string>, view: map<string, Blob>, id: Identity, r: Option<Receipt>): Option<Scan> {
    if names == [] then Some(ScanStart(r))
    else
      var before := ScanAll(names[..|names| - 1], view, id, r);
      if before.None? then None else ScanName(before.value, names[|names| - 1], view, id, r)
  }

  datatype ReceiptCase = BadReceipt | GoodReceipt(receipt: Option<Receipt>)

  function ReadReceipt(view: map<string, Blob>, id: Identity): ReceiptCase {
    if RECEIPT !in view then GoodReceipt(None)
    else
      var b := Lookup(view, RECEIPT, MAX_RECEIPT);
      if b.Some? && Confirmed(b.value, id) then GoodReceipt(Some(b.value.receipt)) else BadReceipt
  }

  function RecoveredState(s: Scan, r: Option<Receipt>): State {
    State(s.files, s.bytes, s.sequence, s.hash, r, false, true, false, false, false, false)
  }

  /** Everything that recovery checks before it removes a file; `listed` is the sorted directory. */
  function Checked(listed: seq<string>, view: map<string, Blob>, id: Identity): Option<(State, seq<string>)> {
    var r := ReadReceipt(view, id);
    if |listed| > id.limits.maxRecords + 3 || LOCK !in view || Size(view[LOCK]) != 0 then None
    else if Lookup(view, IDENTITY, MAX_IDENTITY) != Some(IdentityBlob(id)) || r.BadReceipt? then None
    else if PhysicalBytes(listed, view) > id.limits.maxBytes then None
    else
      var s := ScanAll(listed, view, id, r.receipt);
      if s.None? || |s.value.files| > id.limits.maxRecords || s.value.bytes + RESERVED > id.limits.maxBytes then None
      else Some((RecoveredState(s.value, r.receipt), s.value.acknowledged))
  }

  function RemovalSteps(names: seq<string>): seq<Step> {
    if names == [] then [] else seq(|names|, i requires 0 <= i < |names| => Unlink(names[i])) + [SyncDir]
  }

  ghost predicate IsDirectory(names: seq<string>, d: Disk) {
    Distinct(names) && Elements(names) == d.cache.Keys
  }

  predicate RecoverSucceeds(names: seq<string>, disk: Disk, id: Identity, o: Outcome) {
    var c := Checked(Sort(names), View(disk), id);
    c.Some? && o.ok && o.done == |RemovalSteps(c.value.1)|
  }

  function RecoverDisk(names: seq<string>, disk: Disk, id: Identity, o: Outcome): Disk {
    var c := Checked(Sort(names), View(disk), id);
    if c.None? || o.done > |RemovalSteps(c.value.1)| then disk
    else ApplyAll(disk, RemovalSteps(c.value.1)[..o.done])
  }

  lemma ApplyNone(d: Disk, steps: seq<Step>)
    ensures ApplyAll(d, steps[..0]) == d
  {
  }

  lemma ApplyNext(d: Disk, steps: seq<Step>, k: nat)
    requires k < |steps|
    ensures ApplyAll(d, steps[..k + 1]) == Apply(ApplyAll(d, steps[..k]), steps[k])
  {
    assert steps[..k + 1][..k] == steps[..k];
  }

  lemma ScanNext(names: seq<string>, view: map<string, Blob>, id: Identity, r: Option<Receipt>, k: nat)
    requires k < |names|
    ensures ScanAll(names[..0], view, id, r) == Some(ScanStart(r))
    ensures var before := ScanAll(names[..k], view, id, r);
            ScanAll(names[..k + 1], view, id, r) == if before.None? then None else ScanName(before.value, names[k], view, id, r)
  {
    hide ScanName;
    assert names[..k + 1][..k] == names[..k];
  }

  lemma {:induction false} ScanFails(names: seq<string>, view: map<string, Blob>, id: Identity, r: Option<Receipt>, k: nat)
    requires k <= |names| && ScanAll(names[..k], view, id, r).None?
    ensures ScanAll(names, view, id, r).None?
    decreases |names| - k
  {
    if k == |names| {
      assert names[..k] == names;
    } else {
      assert names[..k + 1][..k] == names[..k];
      ScanFails(names, view, id, r, k + 1);
    }
  }
}
