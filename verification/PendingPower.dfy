/**
  What a loss of power leaves of an explained disk. The result is again an
  explained disk, with one exception: recovery may have removed a record on the
  strength of a receipt that is visible but not yet durable, and the loss may
  then keep the removal and lose the receipt.
 */
module PendingPower {
  import opened Basics
  import opened PendingNames
  import opened SortedNames
  import opened PendingStore
  import opened PendingSpec
  import opened PendingLayout
  import opened PendingRecovery

  function ReceiptSequence(files: map<string, File>): int {
    if RECEIPT in files && files[RECEIPT].blob.ReceiptBlob? then files[RECEIPT].blob.receipt.sequence else 0
  }

  /** A durable record is already removed that the visible receipt covers and the durable one does not. */
  ghost predicate Exposed(d: Disk) {
    exists i: nat :: ReceiptSequence(d.durable) < i <= ReceiptSequence(d.cache) && i <= MAX_INT64 &&
                     RecordName(i) in d.durable && RecordName(i) !in d.cache
  }

  lemma {:induction false} ExposedIff(s: Shape, d: Disk, id: Identity)
    requires Explains(s, d, id)
    ensures Exposed(d) <==> exists i: nat :: Acked(s.drb) < i <= Acked(s.rb) && i <= s.dlen && i !in s.keep
  {
    hide RecordName, Bytes, Chain;
    ChainShort(id, s.log);
    assert ReceiptSequence(d.durable) == Acked(s.drb) && ReceiptSequence(d.cache) == Acked(s.rb);
    if i: nat :| Acked(s.drb) < i <= Acked(s.rb) && i <= s.dlen && i !in s.keep {
      assert |s.log[..s.dlen]| == s.dlen;
      assert RecordName(i) in d.durable && RecordName(i) !in d.cache;
    }
    if i: nat :| ReceiptSequence(d.durable) < i <= ReceiptSequence(d.cache) && RecordName(i) in d.durable && RecordName(i) !in d.cache {
      DurableRecord(s, d, id, i);
      assert i !in s.keep;
    }
  }

  ghost function ImageReceipt(img: map<string, Blob>): Option<Blob> {
    if RECEIPT in img then Some(img[RECEIPT]) else None
  }

  ghost function ImageKeep(img: map<string, Blob>, a: int): set<nat> {
    set i: nat | 1 <= i <= a && RecordName(i) in img
  }

  ghost function ImageShape(s: Shape, img: map<string, Blob>, n: nat): Shape
    requires n <= |s.log|
  {
    var rb := ImageReceipt(img);
    var keep := ImageKeep(img, Acked(rb));
    Shape(s.log[..n], s.lo, keep, rb, n, keep, rb)
  }

  lemma ImageFixed(s: Shape, d: Disk, id: Identity, img: map<string, Blob>)
    requires Explains(s, d, id) && IsImage(d, img)
    ensures IDENTITY in img && img[IDENTITY] == IdentityBlob(id) && LOCK in img && img[LOCK] == Empty
    ensures ImageReceipt(img) == s.rb || ImageReceipt(img) == s.drb
  {
  }

  lemma RecordNotTemporary(i: nat)
    ensures RecordName(i) != TMP
  {
    assert |RecordName(i)| > |TMP|;
  }

  /** An image shows a record only as it was written. */
  lemma ImageRecord(s: Shape, d: Disk, id: Identity, img: map<string, Blob>, i: nat)
    requires Explains(s, d, id) && IsImage(d, img) && 1 <= i <= |s.log| && RecordName(i) in img
    ensures img[RecordName(i)] == WireBlob(s.log[i - 1]) && s.lo < i
  {
    hide RecordName, Explains;
    RecordNotTemporary(i);
    if RecordName(i) in d.durable && Reads(d.durable[RecordName(i)], img[RecordName(i)]) {
      DurableRecord(s, d, id, i);
    } else {
      CachedRecord(s, d, id, i);
    }
  }

  lemma ImageNamed(s: Shape, d: Disk, id: Identity, img: map<string, Blob>, x: string)
    requires Explains(s, d, id) && IsImage(d, img) && x in img
    ensures Known(x, |s.log|)
  {
    hide RecordName, Chain, Covers, Bytes;
    if x != TMP && x !in d.cache { DurableNamed(s, d, id, x); }
  }

  lemma ImageKeeps(s: Shape, d: Disk, id: Identity, img: map<string, Blob>, i: nat)
    requires Explains(s, d, id) && IsImage(d, img)
    requires 1 <= i <= s.dlen && Acked(s.drb) < i && (i in s.keep || Acked(s.rb) < i)
    ensures RecordName(i) in img
  {
    hide RecordName, Chain, Covers, Bytes;
    assert |s.log[..s.dlen]| == s.dlen;
    assert RecordName(i) in d.durable && RecordName(i) in d.cache;
  }

  lemma ImageRecords(s: Shape, d: Disk, id: Identity, img: map<string, Blob>)
    requires Explains(s, d, id) && IsImage(d, img)
    ensures forall i :: 1 <= i <= |s.log| && RecordName(i) in img ==>
              img[RecordName(i)] == WireBlob(s.log[i - 1]) && s.lo < i
    ensures forall i :: 1 <= i <= s.dlen && Acked(s.drb) < i && (i in s.keep || Acked(s.rb) < i) ==> RecordName(i) in img
    ensures forall x :: x in img ==> Known(x, |s.log|)
  {
    hide RecordName, Explains, IsImage, Known;
    forall i | 1 <= i <= |s.log| && RecordName(i) in img
      ensures img[RecordName(i)] == WireBlob(s.log[i - 1]) && s.lo < i
    {
      ImageRecord(s, d, id, img, i);
    }
    forall i | 1 <= i <= s.dlen && Acked(s.drb) < i && (i in s.keep || Acked(s.rb) < i) ensures RecordName(i) in img {
      ImageKeeps(s, d, id, img, i);
    }
    forall x | x in img ensures Known(x, |s.log|) {
      ImageNamed(s, d, id, img, x);
    }
  }

  lemma CachedRecord(s: Shape, d: Disk, id: Identity, i: nat)
    requires Explains(s, d, id) && 1 <= i <= |s.log| && RecordName(i) in d.cache
    ensures s.lo < i && d.cache[RecordName(i)] == File(WireBlob(s.log[i - 1]), true)
  {
    hide RecordName, Chain, Covers, Bytes;
    assert i in s.keep ==> i in s.keep + s.dkeep;
  }

  lemma DurableNamed(s: Shape, d: Disk, id: Identity, n: string)
    requires Explains(s, d, id) && n in d.durable
    ensures Known(n, s.dlen)
    ensures forall j :: 1 <= j <= s.dlen && n == RecordName(j) ==> d.durable[n] == File(WireBlob(s.log[j - 1]), true) && s.lo < j
  {
    hide RecordName, Chain, Covers, Bytes;
    var log := s.log[..s.dlen];
    assert Known(n, |log|);
    forall j | 1 <= j <= s.dlen && n == RecordName(j) ensures d.durable[n] == File(WireBlob(s.log[j - 1]), true) && s.lo < j {
      assert log[j - 1] == s.log[j - 1];
      assert j in s.dkeep ==> j in s.keep + s.dkeep;
    }
  }

  lemma DurableRecord(s: Shape, d: Disk, id: Identity, i: nat)
    requires Explains(s, d, id) && 1 <= i <= |s.log| && RecordName(i) in d.durable
    ensures i <= s.dlen && s.lo < i && d.durable[RecordName(i)] == File(WireBlob(s.log[i - 1]), true)
  {
    hide RecordName, Chain, Covers, Bytes, Laid;
    ChainShort(id, s.log);
    AllNamesDistinct(|s.log|);
    DurableNamed(s, d, id, RecordName(i));
    assert i <= s.dlen;
  }

  /** What an image holds, without the disk that it came from. */
  ghost predicate ImageOf(img: map<string, Blob>, id: Identity, log: seq<Wire>, lo: nat) {
    && IDENTITY in img && img[IDENTITY] == IdentityBlob(id) && LOCK in img && img[LOCK] == Empty
    && (forall i :: 1 <= i <= |log| && RecordName(i) in img ==> img[RecordName(i)] == WireBlob(log[i - 1]) && lo < i)
    && (forall x :: x in img ==> Known(x, |log|))
  }

  lemma ImageHolds(s: Shape, d: Disk, id: Identity, img: map<string, Blob>)
    requires Explains(s, d, id) && IsImage(d, img)
    ensures ImageOf(img, id, s.log, s.lo)
  {
    ImageFixed(s, d, id, img);
    ImageRecords(s, d, id, img);
  }

  lemma LaidImage(img: map<string, Blob>, id: Identity, log: seq<Wire>, lo: nat, n: nat)
    requires ImageOf(img, id, log, lo) && n <= |log| && 0 <= Acked(ImageReceipt(img)) <= n
    requires forall i :: Acked(ImageReceipt(img)) < i <= n ==> RecordName(i) in img
    requires forall i :: n < i <= |log| ==> RecordName(i) !in img
    ensures Laid(Settled(img).cache, id, log[..n], ImageKeep(img, Acked(ImageReceipt(img))), ImageReceipt(img))
  {
    hide RecordName;
    var files := Settled(img).cache;
    forall x | x in files ensures Known(x, n) {
      assert Known(x, |log|);
      if !Fixed(x) {
        var i :| 1 <= i <= |log| && x == RecordName(i);
        assert 1 <= i <= n;
      }
    }
  }

  lemma ImageKeepAbove(img: map<string, Blob>, id: Identity, log: seq<Wire>, lo: nat, a: int)
    requires ImageOf(img, id, log, lo) && a <= |log|
    ensures forall i :: i in ImageKeep(img, a) ==> lo < i
  {
    hide RecordName;
  }

  lemma PrefixOf(id: Identity, log: seq<Wire>, rb: Option<Blob>, lo: nat, n: nat)
    requires Chain(id, log) && Covers(rb, id, log) && 0 <= Acked(rb) <= n <= |log|
    ensures Chain(id, log[..n]) && Covers(rb, id, log[..n]) && Bytes(log[..n], lo, n) <= Bytes(log, lo, |log|)
  {
    assert log[..n][..n] == log[..n];
    BytesSame(log, log[..n], lo, n);
    BytesMonotone(log, lo, n, |log|);
  }

  /** An image whose records after its receipt are exactly those up to n is again explained. */
  lemma ImageExplained(s: Shape, d: Disk, id: Identity, img: map<string, Blob>, n: nat)
    requires Explains(s, d, id) && IsImage(d, img) && n <= |s.log| && Acked(ImageReceipt(img)) <= n
    requires forall i :: Acked(ImageReceipt(img)) < i <= n ==> RecordName(i) in img
    requires forall i :: n < i <= |s.log| ==> RecordName(i) !in img
    ensures Explains(ImageShape(s, img, n), Settled(img), id)
  {
    hide RecordName, Laid, IsImage, Chain, Covers, Bytes, ImageOf;
    ImageFixed(s, d, id, img);
    ImageHolds(s, d, id, img);
    LaidImage(img, id, s.log, s.lo, n);
    PrefixOf(id, s.log, ImageReceipt(img), s.lo, n);
    assert s.log[..n][..n] == s.log[..n];
    ImageKeepAbove(img, id, s.log, s.lo, Acked(ImageReceipt(img)));
  }

  /** The number of records that an image still accounts for. */
  ghost function ImageLength(s: Shape, img: map<string, Blob>): nat
    requires s.dlen <= |s.log|
  {
    if s.dlen < |s.log| && Acked(ImageReceipt(img)) <= s.dlen && RecordName(|s.log|) !in img then s.dlen else |s.log|
  }

  lemma ImageWhole(s: Shape, d: Disk, id: Identity, img: map<string, Blob>)
    requires Explains(s, d, id) && IsImage(d, img)
    requires forall i :: Acked(ImageReceipt(img)) < i <= Acked(s.rb) && i <= s.dlen ==> RecordName(i) in img
    ensures Explains(ImageShape(s, img, ImageLength(s, img)), Settled(img), id)
  {
    hide RecordName, Laid, IsImage, Covers, Chain, Bytes;
    ImageFixed(s, d, id, img);
    ImageRecords(s, d, id, img);
    var n := ImageLength(s, img);
    forall i | Acked(ImageReceipt(img)) < i <= n ensures RecordName(i) in img {
    }
    ImageExplained(s, d, id, img, n);
  }

  /** Unless the disk is exposed, every image of it is explained and keeps every durable record. */
  lemma {:induction false} PowerLoss(s: Shape, d: Disk, id: Identity, img: map<string, Blob>)
    requires Explains(s, d, id) && IsImage(d, img) && !Exposed(d)
    ensures Explains(ImageShape(s, img, ImageLength(s, img)), Settled(img), id)
  {
    hide RecordName, Laid, IsImage, Covers, Chain, Bytes, Exposed;
    ExposedIff(s, d, id);
    ImageFixed(s, d, id, img);
    ImageRecords(s, d, id, img);
    ImageWhole(s, d, id, img);
  }

  /** Recovery refuses every listing of this directory. */
  ghost predicate Refused(d: Disk, id: Identity) {
    forall names :: IsDirectory(names, d) ==> Checked(Sort(names), View(d), id).None?
  }

  lemma GapRejected(names: seq<string>, img: map<string, Blob>, id: Identity, m: nat, i: nat)
    requires IsDirectory(names, Settled(img)) && 0 <= Acked(ImageReceipt(img)) < m < i <= MAX_INT64
    requires RecordName(i) in img && RecordName(m) !in img
    ensures Checked(Sort(names), View(Settled(img)), id).None?
  {
    hide RecordName, Sort, ScanAll, PhysicalBytes;
    var listed, view := Sort(names), View(Settled(img));
    assert view == img;
    var r := ReadReceipt(view, id);
    assert Elements(listed) == Settled(img).cache.Keys == img.Keys;
    assert RecordName(i) in Elements(listed) && RecordName(m) !in Elements(listed);
    if r.GoodReceipt? && ScanAll(listed, view, id, r.receipt).Some? {
      ScanContiguous(listed, view, id, r.receipt);
    }
  }

  /** A record above a missing one makes recovery fail closed. */
  lemma {:induction false} GapRefused(img: map<string, Blob>, id: Identity, m: nat, i: nat)
    requires 0 <= Acked(ImageReceipt(img)) < m < i <= MAX_INT64
    requires RecordName(i) in img && RecordName(m) !in img
    ensures Refused(Settled(img), id)
  {
    hide RecordName, Checked;
    forall names | IsDirectory(names, Settled(img)) ensures Checked(Sort(names), View(Settled(img)), id).None? {
      GapRejected(names, img, id, m, i);
    }
  }

  /** The image holds the records between its receipt and m, and none from m on. */
  ghost predicate CutAt(img: map<string, Blob>, top: nat, m: nat) {
    && 0 <= Acked(ImageReceipt(img)) < m
    && (forall i :: Acked(ImageReceipt(img)) < i < m ==> RecordName(i) in img)
    && (forall i :: m <= i <= top ==> RecordName(i) !in img)
  }

  /** Walks up from the receipt to the first missing record. */
  lemma FirstMissing(img: map<string, Blob>, id: Identity, top: nat, j: nat, gap: nat)
    requires 0 <= Acked(ImageReceipt(img)) < j <= gap <= top <= MAX_INT64 && RecordName(gap) !in img
    requires forall i :: Acked(ImageReceipt(img)) < i < j ==> RecordName(i) in img
    ensures Refused(Settled(img), id) || exists m: nat :: m <= gap && CutAt(img, top, m)
    decreases gap - j
  {
    hide RecordName, Refused;
    if RecordName(j) in img {
      FirstMissing(img, id, top, j + 1, gap);
    } else if i :| j < i <= top && RecordName(i) in img {
      GapRefused(img, id, j, i);
    } else {
      assert CutAt(img, top, j);
    }
  }

  lemma ImageCut(s: Shape, d: Disk, id: Identity, img: map<string, Blob>, m: nat)
    requires Explains(s, d, id) && IsImage(d, img) && m <= |s.log| && CutAt(img, |s.log|, m)
    ensures Explains(ImageShape(s, img, m - 1), Settled(img), id)
  {
    hide RecordName, Laid, IsImage, Covers, Chain, Bytes;
    ImageExplained(s, d, id, img, m - 1);
  }

  /** Some record at or below the visible receipt is missing, and all above it. */
  ghost predicate Cut(s: Shape, d: Disk, id: Identity, img: map<string, Blob>, m: nat) {
    m <= Acked(s.rb) <= |s.log| && CutAt(img, |s.log|, m) && Explains(ImageShape(s, img, m - 1), Settled(img), id)
  }

  /** From an exposed disk, an image is explained in full, or explained up to a removed record, or refused. */
  lemma {:induction false} PowerLossExposed(s: Shape, d: Disk, id: Identity, img: map<string, Blob>)
    requires Explains(s, d, id) && IsImage(d, img)
    ensures || Explains(ImageShape(s, img, ImageLength(s, img)), Settled(img), id)
            || (exists m: nat :: Cut(s, d, id, img, m))
            || Refused(Settled(img), id)
  {
    hide RecordName, Laid, IsImage, Covers, Bytes, Refused;
    ImageFixed(s, d, id, img);
    assert |s.log| <= MAX_INT64 && 0 <= Acked(ImageReceipt(img)) <= Acked(s.rb) <= |s.log|;
    hide Explains, ImageShape, ImageLength, Settled, ImageReceipt;
    if i :| Acked(ImageReceipt(img)) < i <= Acked(s.rb) && i <= s.dlen && RecordName(i) !in img {
      FirstMissing(img, id, |s.log|, Acked(ImageReceipt(img)) + 1, i);
      if m: nat :| m <= i && CutAt(img, |s.log|, m) {
        ImageCut(s, d, id, img, m);
        assert Cut(s, d, id, img, m);
      }
    } else {
      ImageWhole(s, d, id, img);
    }
  }

  /** An image has lost a record that was durable and that no receipt in it covers. */
  ghost predicate Loses(d: Disk, img: map<string, Blob>) {
    exists i: nat :: Acked(ImageReceipt(img)) < i <= MAX_INT64 && RecordName(i) in d.durable && RecordName(i) !in img
  }

  /** What is visible, with the receipt that is durable. */
  ghost function OldReceiptImage(d: Disk): map<string, Blob> {
    map n | n in d.cache.Keys + d.durable.Keys && (if n == RECEIPT then n in d.durable else n in d.cache) ::
      if n == RECEIPT then d.durable[n].blob else d.cache[n].blob
  }

  lemma OldReceiptIsImage(s: Shape, d: Disk, id: Identity)
    requires Explains(s, d, id)
    ensures IsImage(d, OldReceiptImage(d)) && ImageReceipt(OldReceiptImage(d)) == s.drb
  {
    hide RecordName, Chain, Bytes, Covers;
  }

  lemma LostImpliesExposed(s: Shape, d: Disk, id: Identity, img: map<string, Blob>)
    requires Explains(s, d, id) && IsImage(d, img) && Loses(d, img)
    ensures Exposed(d)
  {
    hide RecordName, Chain, Bytes, Covers, Exposed;
    ImageFixed(s, d, id, img);
    ExposedIff(s, d, id);
    DurableBound(s, d, id);
    var i: nat :| Acked(ImageReceipt(img)) < i <= MAX_INT64 && RecordName(i) in d.durable && RecordName(i) !in img;
    DurableRecord(s, d, id, i);
    assert RecordName(i) !in d.cache;
    assert i !in s.keep && i <= Acked(s.rb);
  }

  /** A durable record's number lies in the log. */
  lemma DurableBound(s: Shape, d: Disk, id: Identity)
    requires Explains(s, d, id)
    ensures forall i: nat :: 1 <= i <= MAX_INT64 && RecordName(i) in d.durable ==> i <= s.dlen
  {
    hide Chain, Bytes, Covers, Laid;
    ChainShort(id, s.log);
    forall i: nat | 1 <= i <= MAX_INT64 && RecordName(i) in d.durable ensures i <= s.dlen {
      DurableNamed(s, d, id, RecordName(i));
      AllNamesDistinct(MAX_INT64);
      hide RecordName;
    }
  }

  /** Some loss of power loses an uncovered durable record if and only if the disk is exposed. */
  lemma {:induction false} LosesIffExposed(s: Shape, d: Disk, id: Identity)
    requires Explains(s, d, id)
    ensures (exists img :: IsImage(d, img) && Loses(d, img)) <==> Exposed(d)
  {
    hide Explains, RecordName, IsImage;
    if Exposed(d) {
      OldReceiptIsImage(s, d, id);
      var img := OldReceiptImage(d);
      var i: nat :| ReceiptSequence(d.durable) < i <= ReceiptSequence(d.cache) && i <= MAX_INT64 &&
                    RecordName(i) in d.durable && RecordName(i) !in d.cache;
      ReceiptsRead(s, d, id);
      assert RecordName(i) !in img by { RecordNameFirst(i, RECEIPT); }
      assert IsImage(d, img) && Loses(d, img);
    }
    if img :| IsImage(d, img) && Loses(d, img) { LostImpliesExposed(s, d, id, img); }
  }

  lemma ReceiptsRead(s: Shape, d: Disk, id: Identity)
    requires Explains(s, d, id)
    ensures ReceiptSequence(d.durable) == Acked(s.drb) && ReceiptSequence(d.cache) == Acked(s.rb)
  {
    hide RecordName, Chain, Bytes;
  }
}
