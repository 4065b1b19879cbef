/**
  Recovery of a laid-out directory: it succeeds exactly when no temporary file
  is left over, and then reads back the records after the receipt, in order.
 */
module PendingRecovery {
  import opened Basics
  import opened PendingNames
  import opened SortedNames
  import opened PendingStore
  import opened PendingSpec
  import opened PendingLayout

  function Range(a: nat, n: nat): (r: seq<nat>)
    requires a <= n
    ensures |r| == n - a && forall k :: 0 <= k < |r| ==> r[k] == a + 1 + k
  {
    if a == n then [] else Range(a, n - 1) + [n]
  }

  ghost function ReceiptIn(rb: Option<Blob>): Option<Receipt> {
    if rb.Some? && rb.value.ReceiptBlob? then Some(rb.value.receipt) else None
  }

  /** The queue that recovery should read: the records after the receipt, nothing else. */
  ghost function Suffix(log: seq<Wire>, rb: Option<Blob>): State
    requires 0 <= Acked(rb) <= |log|
  {
    State(NamesOf(Range(Acked(rb), |log|)), Bytes(log, Acked(rb), |log|), |log|, TailHash(log, |log|), ReceiptIn(rb),
          false, true, false, false, false, false)
  }

  /** Laid out with a receipt that covers it, within the limits. */
  ghost predicate Sound(d: Disk, id: Identity, log: seq<Wire>, keep: set<nat>, rb: Option<Blob>, lo: nat) {
    && id.Valid() && Chain(id, log) && 0 <= Acked(rb)
    && Laid(d.cache, id, log, keep, rb) && Covers(rb, id, log)
    && lo <= Acked(rb) && (forall i :: i in keep ==> lo < i)
    && |log| - lo <= id.limits.maxRecords && Bytes(log, lo, |log|) + RESERVED <= id.limits.maxBytes
  }

  ghost function Present(keep: set<nat>, a: nat, n: nat): seq<nat>
    requires a <= n
  {
    Ordered(keep) + Range(a, n)
  }

  lemma PresentIncreasing(keep: set<nat>, a: nat, n: nat)
    requires a <= n <= MAX_INT64 && forall i :: i in keep ==> i <= a
    ensures Increasing(Present(keep, a, n))
  {
    var ns := Present(keep, a, n);
    forall i, j | 0 <= i < j < |ns| ensures ns[i] < ns[j] {
      if i < |Ordered(keep)| <= j {
        assert ns[i] in Ordered(keep);
      }
    }
    forall i | 0 <= i < |ns| ensures ns[i] <= MAX_INT64 {
      if i < |Ordered(keep)| { assert ns[i] in Ordered(keep); }
    }
  }

  lemma ListingHas(ns: seq<nat>, receipt: bool)
    ensures forall i :: i in ns ==> RecordName(i) in Listing(ns, receipt)
    ensures IDENTITY in Listing(ns, receipt) && LOCK in Listing(ns, receipt) && (receipt ==> RECEIPT in Listing(ns, receipt))
  {
    var listing := Listing(ns, receipt);
    forall i | i in ns ensures RecordName(i) in listing {
      var k :| 0 <= k < |ns| && ns[k] == i;
      assert listing[k] == NamesOf(ns)[k];
    }
    assert listing[|ns|] == IDENTITY && listing[|ns| + 1] == LOCK;
    assert receipt ==> listing[|ns| + 2] == RECEIPT;
  }

  lemma PresentIff(keep: set<nat>, a: nat, n: nat)
    requires a <= n
    ensures forall i :: i in Present(keep, a, n) <==> i in keep || a < i <= n
  {
    forall i | a < i <= n ensures i in Range(a, n) {
      assert Range(a, n)[i - 1 - a] == i;
    }
  }

  lemma ListingOnly(ns: seq<nat>, receipt: bool, x: string)
    requires x in Listing(ns, receipt)
    ensures x == IDENTITY || x == LOCK || (receipt && x == RECEIPT) || exists i :: i in ns && x == RecordName(i)
  {
    var listing := Listing(ns, receipt);
    var k :| 0 <= k < |listing| && listing[k] == x;
    if k < |ns| {
      assert listing[k] == NamesOf(ns)[k] == RecordName(ns[k]) && ns[k] in ns;
    }
  }

  /** The sorted directory. */
  lemma SortedDirectory(names: seq<string>, d: Disk, id: Identity, log: seq<Wire>, keep: set<nat>, rb: Option<Blob>)
    requires Laid(d.cache, id, log, keep, rb) && 0 <= Acked(rb) && |log| <= MAX_INT64
    requires IsDirectory(names, d) && TMP !in d.cache
    ensures Sort(names) == Listing(Present(keep, Acked(rb), |log|), rb.Some?)
  {
    hide RecordName, NamesOf, Sort, Present, Listing;
    var ns := Present(keep, Acked(rb), |log|);
    var listing := Listing(ns, rb.Some?);
    PresentIncreasing(keep, Acked(rb), |log|);
    PresentIff(keep, Acked(rb), |log|);
    ListingHas(ns, rb.Some?);
    forall x | x in d.cache ensures x in listing {
      assert Known(x, |log|);
    }
    forall x | x in listing ensures x in d.cache {
      ListingOnly(ns, rb.Some?, x);
    }
    assert Elements(names) == Elements(listing);
    SortedListing(names, ns, rb.Some?);
  }

  // ----- the scan -----

  /** Record i of the log can be read back from its file. */
  ghost predicate Readable(view: map<string, Blob>, id: Identity, log: seq<Wire>, i: nat) {
    && 1 <= i <= |log|
    && RecordName(i) in view && Size(view[RecordName(i)]) == log[i - 1].size
    && WireAt(view, RecordName(i), id) == Some(log[i - 1]) && log[i - 1].header.sequence == i
    && ParseRecordName(RecordName(i)) == Some(i) && !Fixed(RecordName(i))
  }

  /** A record that must be there is there, whole. */
  lemma RecordLaid(d: Disk, id: Identity, log: seq<Wire>, keep: set<nat>, rb: Option<Blob>, i: nat)
    requires Laid(d.cache, id, log, keep, rb) && 1 <= i <= |log| && i < MAX_INT64 && (i in keep || Acked(rb) < i)
    ensures RecordName(i) in d.cache && d.cache[RecordName(i)] == File(WireBlob(log[i - 1]), true)
  {
    ParseOfRecordName(i);
    AllNamesDistinct(i);
    hide RecordName;
  }

  lemma LinkOf(id: Identity, log: seq<Wire>, i: nat)
    requires Chain(id, log) && 1 <= i <= |log|
    ensures Inspected(log[i - 1], id) && log[i - 1].header.sequence == i < MAX_INT64 && log[i - 1].size <= MAX_WIRE
  {
  }

  lemma RecordReadable(d: Disk, id: Identity, log: seq<Wire>, keep: set<nat>, rb: Option<Blob>, i: nat)
    requires Laid(d.cache, id, log, keep, rb) && Chain(id, log) && 1 <= i <= |log| && (i in keep || Acked(rb) < i)
    ensures Readable(View(d), id, log, i)
  {
    hide RecordName, ParseRecordName, Laid, Chain, Inspected, Fixed;
    LinkOf(id, log, i);
    ParseOfRecordName(i);
    NameNotFixed(i);
    RecordLaid(d, id, log, keep, rb, i);
    assert View(d)[RecordName(i)] == WireBlob(log[i - 1]);
  }

  lemma NameNotFixed(i: nat)
    requires 1 <= i < MAX_INT64
    ensures !Fixed(RecordName(i))
  {
    AllNamesDistinct(i);
    hide RecordName;
  }

  lemma PresentReadable(d: Disk, id: Identity, log: seq<Wire>, keep: set<nat>, rb: Option<Blob>)
    requires Laid(d.cache, id, log, keep, rb) && Chain(id, log) && 0 <= Acked(rb)
    ensures var ns := Present(keep, Acked(rb), |log|);
            forall k :: 0 <= k < |ns| ==> Readable(View(d), id, log, ns[k]) && (ns[k] in keep || Acked(rb) < ns[k])
  {
    hide RecordName, Readable;
    var ns := Present(keep, Acked(rb), |log|);
    PresentIff(keep, Acked(rb), |log|);
    forall k | 0 <= k < |ns| ensures Readable(View(d), id, log, ns[k]) && (ns[k] in keep || Acked(rb) < ns[k]) {
      assert ns[k] in ns;
      RecordReadable(d, id, log, keep, rb, ns[k]);
    }
  }

  lemma ScanSnoc(names: seq<string>, name: string, view: map<string, Blob>, id: Identity, r: Option<Receipt>)
    ensures ScanAll(names + [name], view, id, r) ==
            var before := ScanAll(names, view, id, r);
            if before.None? then None else ScanName(before.value, name, view, id, r)
  {
    assert (names + [name])[..|names|] == names;
  }

  lemma NamesSnoc(ns: seq<nat>, n: nat)
    ensures NamesOf(ns + [n]) == NamesOf(ns) + [RecordName(n)]
  {
    assert (ns + [n])[..|ns|] == ns;
  }

  /** Names at or below the receipt are set aside for removal. */
  lemma {:induction false} ScanKept(ks: seq<nat>, view: map<string, Blob>, id: Identity, log: seq<Wire>, rb: Option<Blob>)
    requires Covers(rb, id, log)
    requires forall k :: 0 <= k < |ks| ==> Readable(view, id, log, ks[k]) && ks[k] <= Acked(rb)
    ensures ScanAll(NamesOf(ks), view, id, ReceiptIn(rb)) ==
            Some(ScanStart(ReceiptIn(rb)).(acknowledged := NamesOf(ks)))
  {
    hide RecordName;
    if ks != [] {
      var rest, i := ks[..|ks| - 1], ks[|ks| - 1];
      assert ks == rest + [i];
      ScanKept(rest, view, id, log, rb);
      NamesSnoc(rest, i);
      ScanSnoc(NamesOf(rest), RecordName(i), view, id, ReceiptIn(rb));
    }
  }

  lemma ScanNextRecord(s: Scan, j: nat, view: map<string, Blob>, id: Identity, log: seq<Wire>, r: Option<Receipt>)
    requires Readable(view, id, log, j) && Chain(id, log) && (r.Some? ==> r.value.sequence < j)
    requires s.sequence == j - 1 && s.hash == TailHash(log, j - 1)
    ensures ScanName(s, RecordName(j), view, id, r) ==
            Some(s.(files := s.files + [RecordName(j)], bytes := s.bytes + log[j - 1].size, sequence := j, hash := TailHash(log, j)))
  {
    hide RecordName;
  }

  ghost function PendingScan(ks: seq<nat>, j: nat, log: seq<Wire>, a: nat): Scan
    requires a <= j <= |log|
  {
    Scan(NamesOf(Range(a, j)), Bytes(log, a, j), j, TailHash(log, j), NamesOf(ks))
  }

  lemma ScanPendingStep(ks: seq<nat>, j: nat, view: map<string, Blob>, id: Identity, log: seq<Wire>, r: Option<Receipt>, a: nat)
    requires Chain(id, log) && a < j <= |log| && (r.Some? ==> r.value.sequence < j) && Readable(view, id, log, j)
    requires ScanAll(NamesOf(ks + Range(a, j - 1)), view, id, r) == Some(PendingScan(ks, j - 1, log, a))
    ensures ScanAll(NamesOf(ks + Range(a, j)), view, id, r) == Some(PendingScan(ks, j, log, a))
  {
    hide RecordName, Readable, Chain, ScanName, ScanAll, NamesOf;
    var before := ks + Range(a, j - 1);
    assert ks + Range(a, j) == before + [j];
    assert Range(a, j) == Range(a, j - 1) + [j];
    NamesSnoc(before, j);
    NamesSnoc(Range(a, j - 1), j);
    ScanSnoc(NamesOf(before), RecordName(j), view, id, r);
    ScanNextRecord(PendingScan(ks, j - 1, log, a), j, view, id, log, r);
  }

  lemma ScanBase(ks: seq<nat>, id: Identity, log: seq<Wire>, rb: Option<Blob>)
    requires Covers(rb, id, log) && 0 <= Acked(rb) <= |log|
    ensures PendingScan(ks, Acked(rb), log, Acked(rb)) == ScanStart(ReceiptIn(rb)).(acknowledged := NamesOf(ks))
  {
  }

  /** The records after the receipt are read contiguously. */
  lemma {:induction false} ScanPending(ks: seq<nat>, j: nat, view: map<string, Blob>, id: Identity, log: seq<Wire>, rb: Option<Blob>)
    requires Covers(rb, id, log) && Chain(id, log) && 0 <= Acked(rb) <= j <= |log|
    requires forall k :: 0 <= k < |ks| ==> Readable(view, id, log, ks[k]) && ks[k] <= Acked(rb)
    requires forall i :: Acked(rb) < i <= j ==> Readable(view, id, log, i)
    ensures ScanAll(NamesOf(ks + Range(Acked(rb), j)), view, id, ReceiptIn(rb)) == Some(PendingScan(ks, j, log, Acked(rb)))
  {
    hide RecordName, Readable, ScanName, NamesOf, Bytes, ScanAll, PendingScan, ScanStart, Chain, TailHash;
    var a := Acked(rb);
    if j == a {
      assert ks + Range(a, j) == ks;
      ScanKept(ks, view, id, log, rb);
      ScanBase(ks, id, log, rb);
    } else {
      ScanPending(ks, j - 1, view, id, log, rb);
      ScanPendingStep(ks, j, view, id, log, ReceiptIn(rb), a);
    }
  }

  /** Fixed names do not change the scan. */
  lemma ScanListing(ns: seq<nat>, receipt: bool, view: map<string, Blob>, id: Identity, r: Option<Receipt>)
    ensures ScanAll(Listing(ns, receipt), view, id, r) == ScanAll(NamesOf(ns), view, id, r)
  {
    hide ScanAll, NamesOf, Listing;
    var base := NamesOf(ns);
    ScanFixed(base, IDENTITY, view, id, r);
    ScanFixed(base + [IDENTITY], LOCK, view, id, r);
    ScanFixed(base + [IDENTITY] + [LOCK], RECEIPT, view, id, r);
    ListingParts(ns, receipt);
  }

  lemma ScanFixed(names: seq<string>, name: string, view: map<string, Blob>, id: Identity, r: Option<Receipt>)
    requires name == IDENTITY || name == LOCK || name == RECEIPT
    ensures ScanAll(names + [name], view, id, r) == ScanAll(names, view, id, r)
  {
    hide ScanAll;
    ScanSnoc(names, name, view, id, r);
  }

  lemma ListingParts(ns: seq<nat>, receipt: bool)
    ensures var base := NamesOf(ns);
            Listing(ns, receipt) == if receipt then base + [IDENTITY] + [LOCK] + [RECEIPT] else base + [IDENTITY] + [LOCK]
  {
    hide NamesOf;
  }

  // ----- the limits -----

  lemma {:induction false} BytesMonotone(log: seq<Wire>, lo: nat, i: nat, j: nat)
    requires i <= j <= |log|
    ensures Bytes(log, lo, i) <= Bytes(log, lo, j)
  {
    if i < j {
      BytesMonotone(log, lo, i, j - 1);
    }
  }

  lemma PhysicalSnoc(names: seq<string>, name: string, view: map<string, Blob>)
    ensures PhysicalBytes(names + [name], view) ==
            PhysicalBytes(names, view) + if name in view then Size(view[name]) else 0
  {
    assert (names + [name])[..|names|] == names;
  }

  /** The first n of the records: their number and their bytes. */
  lemma {:induction false} RecordsTo(ns: seq<nat>, n: nat, lo: nat, view: map<string, Blob>, id: Identity, log: seq<Wire>)
    requires Increasing(ns) && n <= |ns|
    requires forall k :: 0 <= k < |ns| ==> lo < ns[k] && Readable(view, id, log, ns[k])
    ensures n > 0 ==> ns[n - 1] <= |log| && n <= ns[n - 1] - lo
    ensures PhysicalBytes(NamesOf(ns[..n]), view) <= if n == 0 then 0 else Bytes(log, lo, ns[n - 1])
  {
    hide PhysicalBytes, NamesOf, Bytes, Readable, RecordName;
    if n == 0 {
      NoNames(view);
    } else {
      var top := ns[n - 1];
      RecordsTo(ns, n - 1, lo, view, id, log);
      ReadableSize(view, id, log, top);
      BytesLast(log, lo, top);
      assert ns[..n] == ns[..n - 1] + [top];
      NamesSnoc(ns[..n - 1], top);
      PhysicalSnoc(NamesOf(ns[..n - 1]), RecordName(top), view);
      if n > 1 {
        assert ns[n - 2] < top;
        BytesMonotone(log, lo, ns[n - 2], top - 1);
      }
    }
  }

  lemma ReadableSize(view: map<string, Blob>, id: Identity, log: seq<Wire>, i: nat)
    requires Readable(view, id, log, i)
    ensures 1 <= i <= |log| && RecordName(i) in view && Size(view[RecordName(i)]) == log[i - 1].size
  {
    hide RecordName, WireAt, ParseRecordName, Fixed;
  }

  lemma RecordBytes(ns: seq<nat>, lo: nat, view: map<string, Blob>, id: Identity, log: seq<Wire>)
    requires Increasing(ns)
    requires forall k :: 0 <= k < |ns| ==> lo < ns[k] && Readable(view, id, log, ns[k])
    ensures ns != [] ==> ns[|ns| - 1] <= |log| && |ns| <= ns[|ns| - 1] - lo
    ensures PhysicalBytes(NamesOf(ns), view) <= if ns == [] then 0 else Bytes(log, lo, ns[|ns| - 1])
  {
    hide PhysicalBytes, NamesOf, Bytes, Readable, Increasing;
    RecordsTo(ns, |ns|, lo, view, id, log);
    assert ns[..|ns|] == ns;
  }

  lemma NoNames(view: map<string, Blob>)
    ensures PhysicalBytes(NamesOf([]), view) == 0
  {
  }

  lemma BytesLast(log: seq<Wire>, lo: nat, top: nat)
    requires lo < top <= |log|
    ensures Bytes(log, lo, top) == Bytes(log, lo, top - 1) + log[top - 1].size
  {
  }

  lemma ListingBytes(ns: seq<nat>, receipt: bool, view: map<string, Blob>)
    requires IDENTITY in view && LOCK in view && (RECEIPT in view <==> receipt)
    ensures PhysicalBytes(Listing(ns, receipt), view) ==
            PhysicalBytes(NamesOf(ns), view) + Size(view[IDENTITY]) + Size(view[LOCK]) + (if receipt then Size(view[RECEIPT]) else 0)
  {
    hide PhysicalBytes, NamesOf, Listing;
    var base := NamesOf(ns);
    PhysicalSnoc(base, IDENTITY, view);
    PhysicalSnoc(base + [IDENTITY], LOCK, view);
    PhysicalSnoc(base + [IDENTITY] + [LOCK], RECEIPT, view);
    ListingParts(ns, receipt);
  }

  lemma FixedView(d: Disk, id: Identity, log: seq<Wire>, keep: set<nat>, rb: Option<Blob>)
    requires Laid(d.cache, id, log, keep, rb) && Covers(rb, id, log) && id.Valid()
    ensures IDENTITY in View(d) && View(d)[IDENTITY] == IdentityBlob(id) && LOCK in View(d) && View(d)[LOCK] == Empty
    ensures RECEIPT in View(d) <==> rb.Some?
    ensures rb.Some? ==> View(d)[RECEIPT] == rb.value && Size(rb.value) <= MAX_RECEIPT
    ensures ReadReceipt(View(d), id) == GoodReceipt(ReceiptIn(rb))
  {
  }

  lemma {:induction false} Fits(d: Disk, id: Identity, log: seq<Wire>, keep: set<nat>, rb: Option<Blob>, lo: nat)
    requires Sound(d, id, log, keep, rb, lo)
    ensures var listed := Listing(Present(keep, Acked(rb), |log|), rb.Some?);
            |listed| <= id.limits.maxRecords + 3 && PhysicalBytes(listed, View(d)) <= id.limits.maxBytes
  {
    hide RecordName, NamesOf, Readable, PhysicalBytes, Present, View, Bytes;
    var ns := Present(keep, Acked(rb), |log|);
    PresentIncreasing(keep, Acked(rb), |log|);
    PresentReadable(d, id, log, keep, rb);
    RecordBytes(ns, lo, View(d), id, log);
    FixedView(d, id, log, keep, rb);
    ListingBytes(ns, rb.Some?, View(d));
    if ns != [] {
      BytesMonotone(log, lo, ns[|ns| - 1], |log|);
    }
  }

  lemma {:induction false} SuffixFits(log: seq<Wire>, lo: nat, a: nat, hi: nat)
    requires lo <= a && hi <= |log|
    ensures Bytes(log, a, hi) <= Bytes(log, lo, hi)
  {
    if a < hi {
      SuffixFits(log, lo, a, hi - 1);
    }
  }

  lemma ScanOfSound(d: Disk, id: Identity, log: seq<Wire>, keep: set<nat>, rb: Option<Blob>)
    requires Laid(d.cache, id, log, keep, rb) && Chain(id, log) && Covers(rb, id, log) && 0 <= Acked(rb)
    ensures ScanAll(Listing(Present(keep, Acked(rb), |log|), rb.Some?), View(d), id, ReceiptIn(rb)) ==
            Some(PendingScan(Ordered(keep), |log|, log, Acked(rb)))
  {
    hide RecordName, NamesOf, Readable, View, ScanAll, Listing;
    var a := Acked(rb);
    var ks, ns := Ordered(keep), Present(keep, a, |log|);
    PresentReadable(d, id, log, keep, rb);
    forall k | 0 <= k < |ks| ensures Readable(View(d), id, log, ks[k]) && ks[k] <= a {
      assert ns[k] == ks[k] && ks[k] in ks;
    }
    forall i | a < i <= |log| ensures Readable(View(d), id, log, i) {
      RecordReadable(d, id, log, keep, rb, i);
    }
    ScanListing(ns, rb.Some?, View(d), id, ReceiptIn(rb));
    ScanPending(ks, |log|, View(d), id, log, rb);
  }

  /** Recovery of a sound directory without a temporary file succeeds with exactly the suffix after the receipt. */
  lemma {:induction false} RecoversSuffix(names: seq<string>, d: Disk, id: Identity, log: seq<Wire>, keep: set<nat>, rb: Option<Blob>, lo: nat)
    requires Sound(d, id, log, keep, rb, lo) && IsDirectory(names, d) && TMP !in d.cache
    ensures Checked(Sort(names), View(d), id) == Some((Suffix(log, rb), NamesOf(Ordered(keep))))
  {
    hide RecordName, NamesOf, View, ScanAll, Listing, Sort, Present, PhysicalBytes, Bytes, ReadReceipt, Laid, Covers;
    SortedDirectory(names, d, id, log, keep, rb);
    Fits(d, id, log, keep, rb, lo);
    FixedView(d, id, log, keep, rb);
    ScanOfSound(d, id, log, keep, rb);
    SuffixFits(log, lo, Acked(rb), |log|);
  }

  /** One name that the scan rejects whatever came before makes recovery fail. */
  lemma {:induction false} ScanRejects(names: seq<string>, bad: string, view: map<string, Blob>, id: Identity, r: Option<Receipt>)
    requires bad in names && forall s :: ScanName(s, bad, view, id, r).None?
    ensures ScanAll(names, view, id, r).None?
  {
    if names[|names| - 1] != bad {
      assert bad in names[..|names| - 1];
      ScanRejects(names[..|names| - 1], bad, view, id, r);
    }
  }

  /** A leftover temporary file makes recovery fail closed. */
  lemma {:induction false} TemporaryRejected(names: seq<string>, d: Disk, id: Identity)
    requires IsDirectory(names, d) && TMP in d.cache
    ensures Checked(Sort(names), View(d), id).None?
  {
    var listed := Sort(names);
    assert TMP in Elements(listed);
    var r := ReadReceipt(View(d), id);
    if r.GoodReceipt? {
      assert forall s :: ScanName(s, TMP, View(d), id, r.receipt).None?;
      ScanRejects(listed, TMP, View(d), id, r.receipt);
    }
  }

  /** A name that the scan accepts either leaves the sequence or is the name of the next one. */
  lemma ScanNameEffect(s: Scan, name: string, view: map<string, Blob>, id: Identity, r: Option<Receipt>)
    requires ScanName(s, name, view, id, r).Some? && ScanStart(r).sequence <= s.sequence
    ensures var t := ScanName(s, name, view, id, r).value;
            || (t.sequence == s.sequence && forall m: nat :: ScanStart(r).sequence < m <= MAX_INT64 ==> RecordName(m) != name)
            || (t.sequence == s.sequence + 1 && 0 <= t.sequence <= MAX_INT64 && name == RecordName(t.sequence))
  {
    hide WireAt;
    if !Fixed(name) { RecordNameOfParse(name); }
    forall m: nat | ScanStart(r).sequence < m <= MAX_INT64 && RecordName(m) == name
      ensures m > 0 ==> !Fixed(name) && ParseRecordName(name) == Some(m)
    {
      if m > 0 { AllNamesDistinct(m); }
      ParseOfRecordName(m);
    }
  }

  /**
    Whatever the directory holds, a scan that succeeds has read an unbroken run
    of sequences that starts right after the receipt.
   */
  lemma {:induction false} ScanContiguous(names: seq<string>, view: map<string, Blob>, id: Identity, r: Option<Receipt>)
    requires ScanAll(names, view, id, r).Some? && 0 <= ScanStart(r).sequence
    ensures var t, start := ScanAll(names, view, id, r).value, ScanStart(r).sequence;
            && start <= t.sequence
            && (forall m: nat :: start < m <= t.sequence ==> RecordName(m) in names)
            && (forall m: nat :: start < m <= MAX_INT64 && RecordName(m) in names ==> m <= t.sequence)
  {
    hide ScanName, RecordName;
    if names != [] {
      var rest, name := names[..|names| - 1], names[|names| - 1];
      ScanContiguous(rest, view, id, r);
      var s, t, start := ScanAll(rest, view, id, r).value, ScanAll(names, view, id, r).value, ScanStart(r).sequence;
      ScanNameEffect(s, name, view, id, r);
      assert forall x :: x in names <==> x in rest || x == name;
      forall m: nat | start < m <= MAX_INT64 && RecordName(m) in names ensures m <= t.sequence {
        if RecordName(m) !in rest && m != t.sequence { NamesDistinct(m, t.sequence); }
      }
    }
  }
}
