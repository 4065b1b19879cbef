/**
  What the directory of a pending queue holds between, and in the middle of, its
  operations, and how each file-system step and each loss of power changes it.

  A `Shape` explains a disk: the chained log of records, the receipt and record
  files that the kernel shows, and those that are durable.
 */
module PendingLayout {
  import opened Basics
  import opened PendingNames
  import opened PendingStore

  function TailHash(log: seq<Wire>, i: nat): Hash
    requires i <= |log|
  {
    if i == 0 then ZeroHash else HashOf(log[i - 1])
  }

  /** Sequence numbers count from one and every record carries the hash of its predecessor. */
  ghost predicate Chain(id: Identity, log: seq<Wire>) {
    && |log| < MAX_INT64
    && forall i :: 0 <= i < |log| ==>
         Inspected(log[i], id) && log[i].header.sequence == i + 1 && log[i].header.previous == TailHash(log, i)
  }

  /** Total wire bytes of records lo+1 .. hi. */
  function Bytes(log: seq<Wire>, lo: nat, hi: nat): nat
    requires hi <= |log|
  {
    if hi <= lo then 0 else Bytes(log, lo, hi - 1) + log[hi - 1].size
  }

  lemma {:induction false} BytesSame(log: seq<Wire>, other: seq<Wire>, lo: nat, hi: nat)
    requires hi <= |log| && hi <= |other| && log[..hi] == other[..hi]
    ensures Bytes(log, lo, hi) == Bytes(other, lo, hi)
  {
    if lo < hi {
      assert log[..hi][..hi - 1] == log[..hi - 1] && other[..hi][..hi - 1] == other[..hi - 1];
      assert log[hi - 1] == log[..hi][hi - 1] && other[hi - 1] == other[..hi][hi - 1];
      BytesSame(log, other, lo, hi - 1);
    }
  }

  function Acked(rb: Option<Blob>): int {
    if rb.Some? && rb.value.ReceiptBlob? then rb.value.receipt.sequence else 0
  }

  predicate ReceiptFor(r: Receipt, w: Wire) {
    r.sequence == w.header.sequence && r.recordId == w.header.recordId && r.wireHash == HashOf(w)
  }

  /** The receipt file, if any, is a confirmed receipt for an exact record of the log. */
  ghost predicate Covers(rb: Option<Blob>, id: Identity, log: seq<Wire>) {
    rb.Some? ==> Confirmed(rb.value, id) && 1 <= Acked(rb) <= |log| && ReceiptFor(rb.value.receipt, log[Acked(rb) - 1])
  }

  predicate Fixed(n: string) {
    n == TMP || n == IDENTITY || n == LOCK || n == RECEIPT
  }

  ghost predicate Known(n: string, top: nat) {
    Fixed(n) || exists i :: 1 <= i <= top && n == RecordName(i)
  }

  /** The files are exactly the fixed ones, the records after the acknowledged one, and those in `keep`. */
  ghost predicate Laid(files: map<string, File>, id: Identity, log: seq<Wire>, keep: set<nat>, rb: Option<Blob>) {
    && Acked(rb) <= |log|
    && (forall i :: i in keep ==> 1 <= i <= Acked(rb))
    && IDENTITY in files && files[IDENTITY] == File(IdentityBlob(id), true)
    && LOCK in files && files[LOCK] == File(Empty, true)
    && (RECEIPT in files <==> rb.Some?)
    && (rb.Some? ==> files[RECEIPT] == File(rb.value, true))
    && (forall i :: 1 <= i <= |log| ==> (RecordName(i) in files <==> i in keep || Acked(rb) < i))
    && (forall i :: 1 <= i <= |log| && RecordName(i) in files ==> files[RecordName(i)] == File(WireBlob(log[i - 1]), true))
    && (forall n :: n in files ==> Known(n, |log|))
  }

  datatype Shape = Shape(
    log: seq<Wire>, lo: nat,
    keep: set<nat>, rb: Option<Blob>,
    dlen: nat, dkeep: set<nat>, drb: Option<Blob>)

  /** The shape explains the disk, and everything that any image of it can hold fits the limits. */
  ghost predicate Explains(s: Shape, d: Disk, id: Identity) {
    && Chain(id, s.log)
    && s.dlen <= |s.log| <= s.dlen + 1
    && 0 <= Acked(s.drb) <= Acked(s.rb) <= |s.log|
    && Acked(s.drb) <= s.dlen && (Acked(s.rb) == Acked(s.drb) ==> s.rb == s.drb)
    && Laid(d.cache, id, s.log, s.keep, s.rb) && Covers(s.rb, id, s.log)
    && Laid(d.durable, id, s.log[..s.dlen], s.dkeep, s.drb) && Covers(s.drb, id, s.log)
    && s.lo <= Acked(s.drb)
    && (forall i :: i in s.keep + s.dkeep ==> s.lo < i)
    && |s.log| - s.lo <= id.limits.maxRecords && Bytes(s.log, s.lo, |s.log|) + RESERVED <= id.limits.maxBytes
  }

  lemma NamesDistinct(i: nat, j: nat)
    requires 1 <= i <= MAX_INT64 && 1 <= j <= MAX_INT64 && i != j
    ensures RecordName(i) != RecordName(j)
  {
    ParseOfRecordName(i);
    ParseOfRecordName(j);
  }

  lemma AllNamesDistinct(n: nat)
    requires n <= MAX_INT64
    ensures forall i, j :: 1 <= i <= n && 1 <= j <= n && RecordName(i) == RecordName(j) ==> i == j
    ensures forall i :: 1 <= i <= n ==> !Fixed(RecordName(i))
  {
    forall i, j | 1 <= i <= n && 1 <= j <= n && RecordName(i) == RecordName(j) ensures i == j {
      if i != j { NamesDistinct(i, j); }
    }
    forall i | 1 <= i <= n ensures !Fixed(RecordName(i)) {
      RecordNameFirst(i, IDENTITY);
      RecordNameFirst(i, LOCK);
      RecordNameFirst(i, RECEIPT);
      RecordNameFirst(i, TMP);
    }
  }

  // ----- single steps -----

  lemma LaidTemporary(files: map<string, File>, id: Identity, log: seq<Wire>, keep: set<nat>, rb: Option<Blob>, f: File)
    requires Laid(files, id, log, keep, rb) && |log| <= MAX_INT64
    ensures Laid(files[TMP := f], id, log, keep, rb)
  {
    AllNamesDistinct(|log|);
    hide RecordName;
  }

  /** Creating, writing or syncing the temporary file changes nothing else. */
  lemma TemporaryStep(s: Shape, d: Disk, id: Identity, step: Step)
    requires Explains(s, d, id)
    requires step == Create(TMP) || (step.Write? && step.name == TMP) || step == SyncFile(TMP)
    ensures Explains(s, Apply(d, step), id)
  {
    var e := Apply(d, step);
    if e != d {
      assert e.cache == d.cache[TMP := e.cache[TMP]];
      LaidTemporary(d.cache, id, s.log, s.keep, s.rb, e.cache[TMP]);
    }
    hide Laid, Chain, Covers, Bytes;
  }

  lemma SyncDirStep(s: Shape, d: Disk, id: Identity)
    requires Explains(s, d, id)
    ensures Explains(s.(dlen := |s.log|, dkeep := s.keep, drb := s.rb), Apply(d, SyncDir), id)
  {
    hide Laid, Chain, Covers, Bytes, RecordName;
    assert s.log[..|s.log|] == s.log;
    assert forall i :: i in s.keep ==> i in s.keep + s.dkeep;
  }

  lemma ChainShort(id: Identity, log: seq<Wire>)
    requires Chain(id, log)
    ensures |log| < MAX_INT64
  {
  }

  lemma ChainSnoc(id: Identity, log: seq<Wire>, w: Wire)
    requires Chain(id, log) && Inspected(w, id)
    requires w.header.sequence == |log| + 1 && w.header.previous == TailHash(log, |log|)
    ensures Chain(id, log + [w])
  {
    hide Inspected, TailHash;
    var next := log + [w];
    assert |next| < MAX_INT64 by { SequenceBound(w, id); }
    forall i | 0 <= i < |next|
      ensures Inspected(next[i], id) && next[i].header.sequence == i + 1 && next[i].header.previous == TailHash(next, i)
    {
      TailHashSnoc(log, w, i);
      assert next[i] == if i < |log| then log[i] else w;
    }
  }

  lemma SequenceBound(w: Wire, id: Identity)
    requires Inspected(w, id)
    ensures w.header.sequence < MAX_INT64
  {
  }

  lemma TailHashSnoc(log: seq<Wire>, w: Wire, i: nat)
    requires i <= |log|
    ensures TailHash(log + [w], i) == TailHash(log, i)
  {
  }

  lemma LaidRecord(files: map<string, File>, id: Identity, log: seq<Wire>, keep: set<nat>, rb: Option<Blob>, w: Wire)
    requires Laid(files, id, log, keep, rb) && |log| + 1 <= MAX_INT64
    ensures Laid((files - {TMP})[RecordName(|log| + 1) := File(WireBlob(w), true)], id, log + [w], keep, rb)
  {
    var n := |log| + 1;
    var name := RecordName(n);
    AllNamesDistinct(n);
    var next := (files - {TMP})[name := File(WireBlob(w), true)];
    forall i | 1 <= i <= n
      ensures RecordName(i) in next <==> i in keep || Acked(rb) < i
      ensures RecordName(i) in next ==> next[RecordName(i)] == File(WireBlob((log + [w])[i - 1]), true)
    {
      if i < n { assert RecordName(i) != name; }
    }
    forall x | x in next ensures Known(x, n) {
      if x != name && !Fixed(x) {
        assert Known(x, |log|);
        var i :| 1 <= i <= |log| && x == RecordName(i);
      }
    }
  }

  lemma RenameRecordStep(s: Shape, d: Disk, id: Identity, w: Wire)
    requires Explains(s, d, id) && s.dlen == |s.log|
    requires TMP in d.cache && d.cache[TMP] == File(WireBlob(w), true)
    requires Inspected(w, id) && w.header.sequence == |s.log| + 1 && w.header.previous == TailHash(s.log, |s.log|)
    requires |s.log| + 1 - s.lo <= id.limits.maxRecords && Bytes(s.log, s.lo, |s.log|) + w.size + RESERVED <= id.limits.maxBytes
    ensures Explains(s.(log := s.log + [w]), Apply(d, Rename(TMP, RecordName(|s.log| + 1))), id)
  {
    hide Laid, Chain, Covers, Bytes, RecordName, Inspected;
    ChainShort(id, s.log);
    var t := s.(log := s.log + [w]);
    ChainSnoc(id, s.log, w);
    LaidRecord(d.cache, id, s.log, s.keep, s.rb, w);
    var e := Apply(d, Rename(TMP, RecordName(|s.log| + 1)));
    assert Laid(e.cache, id, t.log, t.keep, t.rb);
    assert t.log[..t.dlen] == s.log == s.log[..s.dlen];
    assert Laid(e.durable, id, t.log[..t.dlen], t.dkeep, t.drb);
    BytesSnoc(s.log, w, s.lo);
    CoversSnoc(s.rb, id, s.log, w);
    CoversSnoc(s.drb, id, s.log, w);
  }

  lemma BytesSnoc(log: seq<Wire>, w: Wire, lo: nat)
    requires lo <= |log|
    ensures Bytes(log + [w], lo, |log + [w]|) == Bytes(log, lo, |log|) + w.size
  {
    assert (log + [w])[..|log|] == log[..|log|];
    BytesSame(log + [w], log, lo, |log|);
  }

  lemma CoversSnoc(rb: Option<Blob>, id: Identity, log: seq<Wire>, w: Wire)
    requires Covers(rb, id, log)
    ensures Covers(rb, id, log + [w])
  {
    hide Confirmed;
  }

  lemma LaidReceipt(files: map<string, File>, id: Identity, log: seq<Wire>, rb: Option<Blob>, b: Blob)
    requires Laid(files, id, log, {}, rb) && b.ReceiptBlob? && b.receipt.sequence == Acked(rb) + 1
    requires 0 <= Acked(rb) < |log| <= MAX_INT64
    ensures Laid((files - {TMP})[RECEIPT := File(b, true)], id, log, {Acked(rb) + 1}, Some(b))
  {
    AllNamesDistinct(|log|);
    var next := (files - {TMP})[RECEIPT := File(b, true)];
    forall i | 1 <= i <= |log|
      ensures RecordName(i) in next <==> RecordName(i) in files
      ensures RecordName(i) in next ==> next[RecordName(i)] == files[RecordName(i)]
    {
      assert !Fixed(RecordName(i));
    }
    forall x | x in next ensures Known(x, |log|) {
      assert x in files || x == RECEIPT;
    }
  }

  lemma CoversNew(id: Identity, log: seq<Wire>, b: Blob)
    requires Confirmed(b, id) && 1 <= b.receipt.sequence <= |log| && ReceiptFor(b.receipt, log[b.receipt.sequence - 1])
    ensures Covers(Some(b), id, log) && b.ReceiptBlob? && Acked(Some(b)) == b.receipt.sequence
  {
  }

  lemma RenameReceiptStep(s: Shape, d: Disk, id: Identity, b: Blob)
    requires Explains(s, d, id) && s.keep == {} && Acked(s.rb) < |s.log|
    requires TMP in d.cache && d.cache[TMP] == File(b, true)
    requires Confirmed(b, id) && b.receipt.sequence == Acked(s.rb) + 1 && ReceiptFor(b.receipt, s.log[Acked(s.rb)])
    ensures Explains(s.(keep := {Acked(s.rb) + 1}, rb := Some(b)), Apply(d, Rename(TMP, RECEIPT)), id)
  {
    hide Laid, Chain, Covers, Bytes, Confirmed, ReceiptFor, RecordName;
    ChainShort(id, s.log);
    CoversNew(id, s.log, b);
    LaidReceipt(d.cache, id, s.log, s.rb, b);
    var t := s.(keep := {Acked(s.rb) + 1}, rb := Some(b));
    assert forall i :: i in t.keep + t.dkeep ==> i == Acked(s.rb) + 1 || i in s.keep + s.dkeep;
  }

  lemma LaidUnlink(files: map<string, File>, id: Identity, log: seq<Wire>, keep: set<nat>, rb: Option<Blob>, i: nat)
    requires Laid(files, id, log, keep, rb) && i in keep && |log| <= MAX_INT64
    ensures Laid(files - {RecordName(i)}, id, log, keep - {i}, rb)
  {
    AllNamesDistinct(|log|);
    var next := files - {RecordName(i)};
    forall j | 1 <= j <= |log| ensures RecordName(j) in next <==> RecordName(j) in files && j != i {
    }
  }

  lemma UnlinkStep(s: Shape, d: Disk, id: Identity, i: nat)
    requires Explains(s, d, id) && i in s.keep
    ensures Explains(s.(keep := s.keep - {i}), Apply(d, Unlink(RecordName(i))), id)
  {
    hide Laid, Chain, Covers, Bytes, RecordName;
    ChainShort(id, s.log);
    LaidUnlink(d.cache, id, s.log, s.keep, s.rb, i);
    assert forall j :: j in (s.keep - {i}) + s.dkeep ==> j in s.keep + s.dkeep;
  }
}
