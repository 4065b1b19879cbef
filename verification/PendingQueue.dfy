/**
  The pending queue as it runs: every operation is a sequence of file-system
  calls, each of which can fail, and is proved to do what `PendingSpec` says.
 */
module PendingQueue {
  import opened Basics
  import opened PendingNames
  import opened SortedNames
  import opened PendingStore
  import opened Spec = PendingSpec

  datatype Fault = Fine | FailsBefore | FailsAfter

  /** A directory whose next calls succeed or fail as `faults` says; a failed call may still have taken effect. */
  class FileSystem {
    var disk: Disk
    var faults: seq<Fault>

    constructor (disk: Disk, faults: seq<Fault>)
      ensures this.disk == disk && this.faults == faults
    {
      this.disk, this.faults := disk, faults;
    }

    method Do(s: Step) returns (ok: bool, ghost done: bool)
      modifies this
      ensures disk == if done then Apply(old(disk), s) else old(disk)
      ensures ok ==> done
      ensures s.Create? && s.name in old(disk).cache ==> !done
    {
      var fault := if faults == [] then Fine else faults[0];
      faults := if faults == [] then [] else faults[1..];
      if (s.Create? && s.name in disk.cache) || fault.FailsBefore? {
        return false, false;
      }
      disk := Apply(disk, s);
      return fault.Fine?, true;
    }
  }

  class Queue {
    const id: Identity
    const fs: FileSystem
    var files: seq<string>
    var bytes: int
    var sequence: int
    var hash: Hash
    var receipt: Option<Receipt>
    var failed: bool
    var frozen: bool
    var closed: bool
    var claimed: bool
    var finished: bool
    var hasKey: bool

    function Abs(): State
      reads this
    {
      State(files, bytes, sequence, hash, receipt, failed, frozen, closed, claimed, finished, hasKey)
    }

    /** A fresh queue for a producer, before its identity file is written. */
    constructor (id: Identity, fs: FileSystem)
      ensures this.id == id && this.fs == fs && Abs() == Fresh()
    {
      this.id, this.fs := id, fs;
      files, bytes, sequence, hash, receipt := [], 0, 0, ZeroHash, None;
      failed, frozen, closed, claimed, finished, hasKey := false, false, false, false, false, true;
    }

    method Atomic(name: string, b: Blob) returns (ok: bool, ghost done: nat)
      modifies fs
      ensures done <= 5 && (ok ==> done == 5)
      ensures fs.disk == ApplyAll(old(fs.disk), AtomicSteps(name, b)[..done])
    {
      ghost var start, steps := fs.disk, AtomicSteps(name, b);
      var good, applied := fs.Do(Create(TMP));
      ApplyNext(start, steps, 0);
      if !good { return false, if applied then 1 else 0; }
      good, applied := fs.Do(Write(TMP, b));
      ApplyNext(start, steps, 1);
      if !good { return false, if applied then 2 else 1; }
      good, applied := fs.Do(SyncFile(TMP));
      ApplyNext(start, steps, 2);
      if !good { return false, if applied then 3 else 2; }
      good, applied := fs.Do(Rename(TMP, name));
      ApplyNext(start, steps, 3);
      if !good { return false, if applied then 4 else 3; }
      good, applied := fs.Do(SyncDir);
      ApplyNext(start, steps, 4);
      return good, if applied then 5 else 4;
    }

    method Store(d: Draft) returns (ok: bool, ghost o: Outcome)
      modifies this, fs
      ensures (Abs(), fs.disk) == Stored(old(Abs()), old(fs.disk), id, d, o)
      ensures ok <==> AppendSucceeds(old(Abs()), id, d, o)
    {
      o := Outcome(0, false);
      var w := Accepts(Abs(), id, d);
      if w.None? { return false, o; }
      var name := RecordName(w.value.header.sequence);
      ghost var done;
      ok, done := Atomic(name, WireBlob(w.value));
      o := Outcome(done, ok);
      if !ok {
        failed := true;
        return;
      }
      files := files + [name];
      bytes := bytes + w.value.size;
      sequence := w.value.header.sequence;
      hash := HashOf(w.value);
    }

    method Append(d: Draft) returns (ok: bool, ghost o: Outcome)
      modifies this, fs
      ensures (Abs(), fs.disk) == Spec.Append(old(Abs()), old(fs.disk), id, d, o)
      ensures ok <==> Appendable(old(Abs()), d) && AppendSucceeds(old(Abs()), id, d, o)
    {
      if frozen || d.payload.RuntimeCleanup? { return false, Outcome(0, false); }
      ok, o := Store(d);
    }

    method Finish(recordId: Id, size: nat) returns (ok: bool, ghost o: Outcome)
      modifies this, fs
      ensures (Abs(), fs.disk) == Spec.Finish(old(Abs()), old(fs.disk), id, recordId, size, o)
      ensures ok <==> Finishable(old(Abs())) && AppendSucceeds(old(Abs()).(finished := true), id, CleanupDraft(recordId, size), o)
    {
      if !frozen || !claimed || finished || !hasKey { return false, Outcome(0, false); }
      finished := true;
      ok, o := Store(CleanupDraft(recordId, size));
    }

    /** The receipt becomes durable before the record that it covers is removed. */
    method Commit(b: Blob, name: string) returns (ok: bool, ghost done: nat)
      modifies fs
      ensures done <= 7 && (ok ==> done == 7)
      ensures fs.disk == ApplyAll(old(fs.disk), AckSteps(b, name)[..done])
    {
      ghost var start, steps := fs.disk, AckSteps(b, name);
      ghost var applied;
      ok, done := Atomic(RECEIPT, b);
      assert steps[..done] == AtomicSteps(RECEIPT, b)[..done];
      if !ok { return; }
      ok, applied := fs.Do(Unlink(name));
      ApplyNext(start, steps, 5);
      done := if applied then 6 else 5;
      if !ok { return; }
      ok, applied := fs.Do(SyncDir);
      ApplyNext(start, steps, 6);
      done := if applied then 7 else 6;
    }

    method Acknowledge(b: Blob) returns (ok: bool, ghost o: Outcome)
      modifies this, fs
      ensures (Abs(), fs.disk) == Spec.Acknowledge(old(Abs()), old(fs.disk), id, b, o)
      ensures ok <==> AckSucceeds(old(Abs()), View(old(fs.disk)), id, b, o)
    {
      hide View, WireAt, ApplyAll, RecordName;
      o := Outcome(0, false);
      if closed || failed || !Confirmed(b, id) { return false, o; }
      if receipt == Some(b.receipt) { return true, o; }
      var acked := if receipt.Some? then receipt.value.sequence else 0;
      if files == [] || b.receipt.sequence != acked + 1 { return false, o; }
      var w := WireAt(View(fs.disk), files[0], id);
      if w.None? || w.value.header.recordId != b.receipt.recordId || w.value.header.sequence != b.receipt.sequence ||
         HashOf(w.value) != b.receipt.wireHash
      {
        return false, o;
      }
      ghost var done;
      ok, done := Commit(b, files[0]);
      o := Outcome(done, ok);
      if !ok {
        failed := true;
        return;
      }
      receipt := Some(b.receipt);
      bytes := bytes - w.value.size;
      files := files[1..];
    }

    /** The first pending wire; a directory that contradicts the queue latches failure. */
    method Next() returns (c: NextCase)
      modifies this
      ensures c == Spec.Next(old(Abs()), View(fs.disk), id)
      ensures Abs() == if c.NextBroken? then old(Abs()).(failed := true) else old(Abs())
    {
      if closed || failed { return NextRefused; }
      if files == [] { return NoRecord; }
      var w := WireAt(View(fs.disk), files[0], id);
      if w.None? || w.value.header.sequence != AckedThrough(Abs()) + 1 || w.value.header.previous != ReceiptHash(receipt) {
        failed := true;
        return NextBroken;
      }
      return NextWire(w.value);
    }

    method ClaimProducer(binding: Binding, source: Key, confirmation: Key) returns (ok: bool)
      modifies this
      ensures ok <==> !old(claimed) && old(sequence) == 0 && ProducerReady(old(Abs()), id, binding, source, confirmation)
      ensures Abs() == if ok then old(Abs()).(claimed := true) else old(Abs())
    {
      ok := !claimed && sequence == 0 && ProducerReady(Abs(), id, binding, source, confirmation);
      if ok { claimed := true; }
    }

    method Freeze()
      modifies this
      ensures Abs() == old(Abs()).(frozen := true)
    {
      frozen := true;
    }

    method Close()
      modifies this
      ensures Abs() == if old(closed) then old(Abs()) else old(Abs()).(closed := true, hasKey := false)
    {
      if !closed { closed, hasKey := true, false; }
    }

    method Measure(listed: seq<string>, view: map<string, Blob>) returns (physical: nat)
      ensures physical == PhysicalBytes(listed, view)
    {
      physical := 0;
      for i := 0 to |listed|
        invariant physical == PhysicalBytes(listed[..i], view)
      {
        assert listed[..i + 1][..i] == listed[..i];
        physical := physical + (if listed[i] in view then Size(view[listed[i]]) else 0);
      }
      assert listed[..|listed|] == listed;
    }

    /** One pass over the sorted names; it stops at the first name that does not fit. */
    static method ScanListed(listed: seq<string>, view: map<string, Blob>, id: Identity, r: Option<Receipt>) returns (s: Option<Scan>)
      ensures s == ScanAll(listed, view, id, r)
    {
      hide ScanName;
      var scan := ScanStart(r);
      for i := 0 to |listed|
        invariant ScanAll(listed[..i], view, id, r) == Some(scan)
      {
        ScanNext(listed, view, id, r, i);
        var next := ScanName(scan, listed[i], view, id, r);
        if next.None? {
          ScanFails(listed, view, id, r, i + 1);
          return None;
        }
        scan := next.value;
      }
      assert listed[..|listed|] == listed;
      return Some(scan);
    }

    method ScanFiles(listed: seq<string>, view: map<string, Blob>, r: Option<Receipt>)
      returns (ok: bool, acknowledged: seq<string>)
      modifies this
      ensures ok <==> ScanAll(listed, view, id, r).Some?
      ensures ok ==> ScanAll(listed, view, id, r).value == Scan(files, bytes, sequence, hash, acknowledged)
      ensures Abs() == old(Abs()).(files := files, bytes := bytes, sequence := sequence, hash := hash)
    {
      hide ScanAll;
      var s := ScanListed(listed, view, id, r);
      if s.None? { return false, []; }
      files, bytes, sequence, hash := s.value.files, s.value.bytes, s.value.sequence, s.value.hash;
      return true, s.value.acknowledged;
    }

    method Remove(names: seq<string>) returns (ok: bool, ghost o: Outcome)
      modifies fs
      ensures o.done <= |RemovalSteps(names)| && (ok <==> o == Outcome(|RemovalSteps(names)|, true))
      ensures fs.disk == ApplyAll(old(fs.disk), RemovalSteps(names)[..o.done])
    {
      ghost var start, steps := fs.disk, RemovalSteps(names);
      ghost var applied;
      for i := 0 to |names|
        invariant fs.disk == ApplyAll(start, steps[..i])
      {
        ok, applied := fs.Do(Unlink(names[i]));
        ApplyNext(start, steps, i);
        if !ok { return false, Outcome(if applied then i + 1 else i, false); }
      }
      if |names| > 0 {
        ok, applied := fs.Do(SyncDir);
        ApplyNext(start, steps, |names|);
        if !ok { return false, Outcome(if applied then |names| + 1 else |names|, false); }
      }
      return true, Outcome(|steps|, true);
    }

    /** The checks of recovery, and the queue that they read from the directory. */
    method Load(listed: seq<string>, view: map<string, Blob>) returns (ok: bool, acknowledged: seq<string>)
      modifies this
      ensures ok <==> Checked(listed, view, id).Some?
      ensures ok ==> Checked(listed, view, id).value == (Abs(), acknowledged)
    {
      acknowledged := [];
      hasKey, frozen, failed, closed, claimed, finished := false, true, false, false, false, false;
      var r := ReadReceipt(view, id);
      if |listed| > id.limits.maxRecords + 3 || LOCK !in view || Size(view[LOCK]) != 0 { return false, []; }
      if Lookup(view, IDENTITY, MAX_IDENTITY) != Some(IdentityBlob(id)) || r.BadReceipt? { return false, []; }
      receipt := r.receipt;
      var physical := Measure(listed, view);
      if physical > id.limits.maxBytes { return false, []; }
      ok, acknowledged := ScanFiles(listed, view, receipt);
      ok := ok && |files| <= id.limits.maxRecords && bytes + RESERVED <= id.limits.maxBytes;
    }

    /** Reads the directory into this queue, then removes records that a durable receipt covers. */
    method Recover(names: seq<string>) returns (ok: bool, ghost o: Outcome)
      requires IsDirectory(names, fs.disk)
      modifies this, fs
      ensures ok <==> RecoverSucceeds(names, old(fs.disk), id, o)
      ensures fs.disk == RecoverDisk(names, old(fs.disk), id, o)
      ensures ok ==> Checked(Sort(names), View(old(fs.disk)), id).Some? &&
                     Abs() == Checked(Sort(names), View(old(fs.disk)), id).value.0
    {
      var acknowledged;
      ok, acknowledged := Load(Sort(names), View(fs.disk));
      if !ok { return false, Outcome(0, false); }
      ok, o := Remove(acknowledged);
    }
  }
}
