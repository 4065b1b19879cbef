/**
  File names of the pending queue directory.

  A record file is named by its sequence number, zero padded to twenty digits.
  Recovery sorts the names as strings, so its contiguity check relies on the
  string order of record names being the numeric order of their sequences.
 */
module PendingNames {

  import opened Basics
  import opened SortedNames

  const TMP := "pending.tmp"
  const IDENTITY := "identity"
  const LOCK := "lock"
  const RECEIPT := "receipt"
  const SUFFIX := ".record"

  function Pow10(w: nat): nat {
    if w == 0 then 1 else 10 * Pow10(w - 1)
  }

  predicate IsDigit(c: char) { '0' <= c <= '9' }

  function Digit(d: nat): (c: char)
    requires d < 10
    ensures IsDigit(c)
  {
    ('0' as int + d) as char
  }

  /** The decimal digits of n, at fixed width. */
  function Dec(n: nat, w: nat): (s: string)
    ensures |s| == w
  {
    if w == 0 then "" else Dec(n / 10, w - 1) + [Digit(n % 10)]
  }

  /** strconv.ParseInt on a digit string; None when a character is not a digit. */
  function DecValue(s: string): Option<nat> {
    if s == "" then Some(0)
    else
      var rest := DecValue(s[..|s| - 1]);
      var last := s[|s| - 1];
      if rest.None? || !IsDigit(last) then None
      else Some(10 * rest.value + (last as int - '0' as int))
  }

  function RecordName(n: nat): string {
    Dec(n, 20) + SUFFIX
  }

  /** The name checks of recovery: length, suffix, and a decimal int64 in between. */
  function ParseRecordName(name: string): Option<nat> {
    if |name| != 27 || name[20..] != SUFFIX then None
    else
      var v := DecValue(name[..20]);
      if v.Some? && v.value <= MAX_INT64 then v else None
  }

  // ----- decimal names -----

  lemma {:induction false} DecRoundTrip(n: nat, w: nat)
    requires n < Pow10(w)
    ensures DecValue(Dec(n, w)) == Some(n)
  {
    if w > 0 {
      DecRoundTrip(n / 10, w - 1);
      assert Dec(n, w)[..w - 1] == Dec(n / 10, w - 1);
    }
  }

  lemma Pow10Twenty()
    ensures MAX_INT64 < Pow10(20)
  {
    assert Pow10(5) == 100_000;
    assert Pow10(10) == 100_000 * 100_000;
    assert Pow10(15) == 100_000 * 100_000 * 100_000;
  }

  /** Reading a record name back gives its sequence, so names are injective. */
  lemma {:induction false} ParseOfRecordName(n: nat)
    requires n <= MAX_INT64
    ensures ParseRecordName(RecordName(n)) == Some(n)
  {
    Pow10Twenty();
    DecRoundTrip(n, 20);
    assert RecordName(n)[..20] == Dec(n, 20);
    assert RecordName(n)[20..] == SUFFIX;
  }

  lemma {:induction false} DecInverse(s: string)
    requires DecValue(s).Some?
    ensures Dec(DecValue(s).value, |s|) == s
  {
    if s != "" {
      DecInverse(s[..|s| - 1]);
      assert s == s[..|s| - 1] + [s[|s| - 1]];
    }
  }

  /** A name that parses is the name of the sequence it parses to. */
  lemma {:induction false} RecordNameOfParse(name: string)
    requires ParseRecordName(name).Some?
    ensures name == RecordName(ParseRecordName(name).value)
  {
    DecInverse(name[..20]);
    assert name == name[..20] + name[20..];
  }

  lemma {:induction false} BelowSnoc(a: string, b: string, x: char, y: char)
    requires |a| == |b|
    requires Below(a, b) || (a == b && x < y)
    ensures Below(a + [x], b + [y])
  {
    if a != "" {
      assert (a + [x])[1..] == a[1..] + [x];
      assert (b + [y])[1..] == b[1..] + [y];
      if a[0] == b[0] {
        BelowSnoc(a[1..], b[1..], x, y);
      }
    }
  }

  lemma {:induction false} BelowAppend(a: string, b: string, tail: string)
    requires |a| == |b| && Below(a, b)
    ensures Below(a + tail, b + tail)
  {
    assert (a + tail)[1..] == a[1..] + tail;
    assert (b + tail)[1..] == b[1..] + tail;
    if a[0] == b[0] {
      BelowAppend(a[1..], b[1..], tail);
    }
  }

  lemma {:induction false} DecOrder(m: nat, n: nat, w: nat)
    requires m < n < Pow10(w)
    ensures Below(Dec(m, w), Dec(n, w))
  {
    if w > 0 {
      if m / 10 < n / 10 {
        DecOrder(m / 10, n / 10, w - 1);
      }
      BelowSnoc(Dec(m / 10, w - 1), Dec(n / 10, w - 1), Digit(m % 10), Digit(n % 10));
    }
  }

  /** String order of record names is numeric order of sequences. */
  lemma {:induction false} RecordNameOrder(m: nat, n: nat)
    requires m < n <= MAX_INT64
    ensures Below(RecordName(m), RecordName(n))
  {
    Pow10Twenty();
    DecOrder(m, n, 20);
    BelowAppend(Dec(m, 20), Dec(n, 20), SUFFIX);
  }

  lemma {:induction false} DecStartsWithDigit(n: nat, w: nat)
    requires w > 0
    ensures IsDigit(Dec(n, w)[0])
  {
    if w > 1 {
      DecStartsWithDigit(n / 10, w - 1);
      assert Dec(n, w)[0] == Dec(n / 10, w - 1)[0];
    }
  }

  /** Every record name sorts before, and differs from, every fixed name. */
  lemma RecordNameFirst(n: nat, other: string)
    requires other != "" && other[0] > '9'
    ensures Below(RecordName(n), other) && RecordName(n) != other
  {
    DecStartsWithDigit(n, 20);
    assert RecordName(n)[0] == Dec(n, 20)[0];
  }

  // ----- the listing of a directory -----

  ghost predicate Increasing(ns: seq<nat>) {
    && (forall i, j :: 0 <= i < j < |ns| ==> ns[i] < ns[j])
    && (forall i :: 0 <= i < |ns| ==> ns[i] <= MAX_INT64)
  }

  function NamesOf(ns: seq<nat>): (r: seq<string>)
    ensures |r| == |ns|
    ensures forall k :: 0 <= k < |r| ==> r[k] == RecordName(ns[k])
  {
    if ns == [] then [] else NamesOf(ns[..|ns| - 1]) + [RecordName(ns[|ns| - 1])]
  }

  /** A whole directory in sorted order: records, then identity, lock and maybe receipt. */
  function Listing(ns: seq<nat>, receipt: bool): seq<string> {
    NamesOf(ns) + [IDENTITY, LOCK] + (if receipt then [RECEIPT] else [])
  }

  lemma ListingAscending(ns: seq<nat>, receipt: bool)
    requires Increasing(ns)
    ensures Ascending(Listing(ns, receipt))
  {
    var s := Listing(ns, receipt);
    assert Below(IDENTITY, LOCK) && Below(IDENTITY, RECEIPT) && Below(LOCK, RECEIPT);
    forall i, j | 0 <= i < j < |s| ensures Below(s[i], s[j]) {
      if j < |ns| {
        RecordNameOrder(ns[i], ns[j]);
      } else if i < |ns| {
        assert s[j] == IDENTITY || s[j] == LOCK || s[j] == RECEIPT;
        RecordNameFirst(ns[i], s[j]);
      }
    }
  }

  /** Sorting any listing of those names gives exactly that order. */
  lemma {:induction false} SortedListing(names: seq<string>, ns: seq<nat>, receipt: bool)
    requires Increasing(ns)
    requires Distinct(names) && Elements(names) == Elements(Listing(ns, receipt))
    ensures Sort(names) == Listing(ns, receipt)
  {
    SortAscending(names);
    ListingAscending(ns, receipt);
    AscendingUnique(Sort(names), Listing(ns, receipt));
  }

  // ----- sets of sequences in order -----

  lemma {:induction false} HasMaximum(k: set<nat>)
    requires k != {}
    ensures exists m :: m in k && forall x :: x in k ==> x <= m
  {
    var y :| y in k;
    if k != {y} {
      var rest := k - {y};
      assert k == {y} + rest;
      HasMaximum(rest);
      var m :| m in rest && forall x :: x in rest ==> x <= m;
      var top := if m < y then y else m;
      forall x | x in k ensures x <= top {
        if x != y { assert x in rest; }
      }
    }
  }

  ghost function Maximum(k: set<nat>): (m: nat)
    requires k != {}
    ensures m in k && forall x :: x in k ==> x <= m
  {
    HasMaximum(k);
    var m :| m in k && forall x :: x in k ==> x <= m;
    m
  }

  ghost function Ordered(k: set<nat>): (r: seq<nat>)
    ensures forall x :: x in r <==> x in k
    ensures forall i, j :: 0 <= i < j < |r| ==> r[i] < r[j]
  {
    if k == {} then [] else
    var m := Maximum(k);
    Ordered(k - {m}) + [m]
  }
}
