/**
  The directory of a pending queue: what its files hold, the file-system steps
  that change it, and what a loss of power can leave behind.

  Signatures and hashes are symbolic. A wire carries the key that signed it, and
  the hash of a wire is the wire itself under a constructor, so a signature is
  unforgeable and the hash is injective by construction.
 */
module PendingStore {
  import opened Basics
  import opened PendingNames

  type Key = nat
  type Id = nat

  const MAX_WIRE := 512 * 1024
  const MAX_RECEIPT := 1024
  const MAX_IDENTITY := 4096
  const RESERVED := 16 * 1024

  /** The registered owner: one admission and runtime, or one process-wide audit source. */
  datatype Binding =
    | Admitted(admission: Id, runtime: Id, rest: string)
    | GlobalAudit(origin: Id, runtime: Id)

  /** What a receipt can name of a binding. */
  datatype Subject = AdmittedSubject(admission: Id, runtime: Id) | GlobalSubject(origin: Id, runtime: Id)

  function SubjectOf(b: Binding): Subject {
    match b
    case Admitted(a, r, _) => AdmittedSubject(a, r)
    case GlobalAudit(o, r) => GlobalSubject(o, r)
  }

  datatype Limits = Limits(maxBytes: int, maxRecords: int)

  datatype Identity = Identity(binding: Binding, source: Key, confirmation: Key, limits: Limits, encoded: nat)
  {
    /** The bounds checked when a queue is opened; its encoding is far below the read limit. */
    predicate Valid() {
      && 1 <= limits.maxRecords <= 4096
      && MAX_WIRE + RESERVED <= limits.maxBytes <= 64 * 1024 * 1024
      && encoded <= MAX_IDENTITY
    }
  }

  /** The plaintext of a record, sealed inside its wire. */
  datatype Payload =
    | Audit(action: string, session: Id)
    | Refresh(expected: int, config: string)
    | RuntimeCleanup

  datatype Hash = ZeroHash | HashOf(wire: Wire)

  datatype Header = Header(binding: Binding, recordId: Id, sequence: int, previous: Hash)

  datatype Wire = Wire(header: Header, payload: Payload, signer: Key, size: nat)

  datatype Receipt = Receipt(subject: Subject, sequence: int, recordId: Id, wireHash: Hash)

  datatype Blob =
    | Empty
    | IdentityBlob(identity: Identity)
    | WireBlob(wire: Wire)
    | ReceiptBlob(receipt: Receipt, signer: Key, length: nat)
    | Junk(count: nat)

  function Size(b: Blob): nat {
    match b
    case Empty => 0
    case IdentityBlob(i) => i.encoded
    case WireBlob(w) => w.size
    case ReceiptBlob(_, _, n) => n
    case Junk(n) => n
  }

  predicate ValidHeader(h: Header) {
    1 <= h.sequence < MAX_INT64 && (h.sequence == 1 ==> h.previous == ZeroHash)
  }

  /** A wire that this identity's source key signed for this binding. */
  predicate Inspected(w: Wire, id: Identity) {
    w.signer == id.source && 64 < w.size <= MAX_WIRE && ValidHeader(w.header) && w.header.binding == id.binding
  }

  /** A receipt that this identity's confirmation key signed for this binding. */
  predicate Confirmed(b: Blob, id: Identity) {
    && b.ReceiptBlob?
    && b.signer == id.confirmation && 64 < b.length <= MAX_RECEIPT
    && 0 < b.receipt.sequence < MAX_INT64 && b.receipt.wireHash.HashOf?
    && b.receipt.subject == SubjectOf(id.binding)
  }

  // ----- the file system -----

  /** A file whose data was not yet synced can read back as anything after a power loss. */
  datatype File = File(blob: Blob, synced: bool)

  /** Directory entries that are durable, and those the running kernel shows. */
  datatype Disk = Disk(durable: map<string, File>, cache: map<string, File>)

  datatype Step =
    | Create(name: string)
    | Write(name: string, blob: Blob)
    | SyncFile(name: string)
    | Rename(from: string, to: string)
    | Unlink(name: string)
    | SyncDir

  function Apply(d: Disk, s: Step): Disk {
    match s
    case Create(n) => d.(cache := d.cache[n := File(Empty, false)])
    case Write(n, b) => d.(cache := d.cache[n := File(b, false)])
    case SyncFile(n) => if n in d.cache then d.(cache := d.cache[n := File(d.cache[n].blob, true)]) else d
    case Rename(f, t) => if f in d.cache then d.(cache := (d.cache - {f})[t := d.cache[f]]) else d
    case Unlink(n) => d.(cache := d.cache - {n})
    case SyncDir => d.(durable := d.cache)
  }

  function ApplyAll(d: Disk, steps: seq<Step>): Disk {
    if steps == [] then d else Apply(ApplyAll(d, steps[..|steps| - 1]), steps[|steps| - 1])
  }

  /** The steps of an atomic file replacement. */
  function AtomicSteps(name: string, b: Blob): seq<Step> {
    [Create(TMP), Write(TMP, b), SyncFile(TMP), Rename(TMP, name), SyncDir]
  }

  predicate Reads(f: File, b: Blob) {
    f.synced ==> f.blob == b
  }

  /**
    A directory that a loss of power may leave: every name independently keeps
    its durable entry or its newer unsynced one.  While the directory is not synced the
    temporary name may also be left from a replacement whose rename was not kept.
   */
  ghost predicate IsImage(d: Disk, img: map<string, Blob>) {
    && (forall n :: n in img ==>
          || (n in d.durable && Reads(d.durable[n], img[n]))
          || (n in d.cache && Reads(d.cache[n], img[n]))
          || (n == TMP && d.durable != d.cache))
    && (forall n :: n in d.durable && n in d.cache ==> n in img)
  }

  function Settled(img: map<string, Blob>): Disk {
    var files := map n | n in img :: File(img[n], true);
    Disk(files, files)
  }

  /** The contents that the running kernel shows to a process that restarts. */
  function View(d: Disk): map<string, Blob> {
    map n | n in d.cache :: d.cache[n].blob
  }
}
