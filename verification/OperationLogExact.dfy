/** Which entries a log ignores and which acknowledgements it takes, from its calls alone. */
module LogExact {
  import opened Basics
  import opened LogSpec

  lemma RunAt(encode: Encoder, errors: set<string>, es: seq<Event>, n: nat)
    requires n < |es|
    ensures Run(encode, errors, es[..n + 1]) == Advance(Run(encode, errors, es[..n]), encode, errors, es[n])
  {
    assert es[..n + 1][..n] == es[..n];
  }

  // ----- repeated entries -----

  /** Call k stored its entry. */
  predicate StoredAt(encode: Encoder, errors: set<string>, es: seq<Event>, k: int) {
    0 <= k < |es| && es[k].Appended? && AppendOutcome(Run(encode, errors, es[..k]), encode, errors, es[k].entry, es[k].configured) == Stored
  }

  lemma NoColon(e: Entry, errors: set<string>)
    requires ValidEntry(e, errors)
    ensures forall i :: 0 <= i < |e.section| ==> e.section[i] != ':'
  {
  }

  lemma Apart(a: string, b: string, c: string, d: string)
    requires |a| < |b| && forall i :: 0 <= i < |b| ==> b[i] != ':'
    ensures a + ":" + c != b + ":" + d
  {
    assert (a + ":" + c)[|a|] == ':';
    assert (b + ":" + d)[|a|] == b[|a|];
  }

  /** A key names one section and one code: no section has a colon. */
  lemma KeyNames(a: Entry, b: Entry, errors: set<string>)
    requires ValidEntry(a, errors) && ValidEntry(b, errors)
    ensures Key(a) == Key(b) <==> a.section == b.section && a.code == b.code
  {
    NoColon(a, errors);
    NoColon(b, errors);
    hide ValidEntry;
    if |a.section| < |b.section| {
      Apart(a.section, b.section, a.code, b.code);
    } else if |b.section| < |a.section| {
      Apart(b.section, a.section, b.code, a.code);
    } else {
      var n := |a.section|;
      assert Key(a)[..n] == a.section && Key(b)[..n] == b.section;
      assert Key(a)[n + 1..] == a.code && Key(b)[n + 1..] == b.code;
    }
  }

  /** Among the first n calls, one stored a critical entry of this section and code. */
  predicate Repeats(encode: Encoder, errors: set<string>, es: seq<Event>, n: nat, e: Entry) {
    exists k :: 0 <= k < n && StoredAt(encode, errors, es, k) && Critical(es[k].entry) && es[k].entry.section == e.section && es[k].entry.code == e.code
  }

  /** Among the first n calls, one reported progress that was stored as the marker. */
  predicate Truncates(encode: Encoder, errors: set<string>, es: seq<Event>, n: nat) {
    exists k :: 0 <= k < n && StoredAt(encode, errors, es, k) && !Critical(es[k].entry) && IsMarker(LastStored(encode, errors, es, k))
  }

  function LastStored(encode: Encoder, errors: set<string>, es: seq<Event>, k: int): Entry
    requires StoredAt(encode, errors, es, k)
  {
    var l := Run(encode, errors, es[..k]);
    ToStore(l, LimitFor(l, es[k].configured), encode, Numbered(l, es[k].entry))
  }

  ghost predicate Remembers(l: Log, encode: Encoder, errors: set<string>, es: seq<Event>, n: nat) {
    && (forall e: Entry :: ValidEntry(e, errors) ==> (Key(e) in l.critical <==> Repeats(encode, errors, es, n, e)))
    && (l.truncated <==> Truncates(encode, errors, es, n))
  }

  lemma StoredValid(encode: Encoder, errors: set<string>, es: seq<Event>, k: int, e: Entry)
    requires StoredAt(encode, errors, es, k) && ValidEntry(e, errors)
    ensures Key(Numbered(Run(encode, errors, es[..k]), es[k].entry)) == Key(es[k].entry)
    ensures Key(es[k].entry) == Key(e) <==> es[k].entry.section == e.section && es[k].entry.code == e.code
  {
    var numbered := Numbered(Run(encode, errors, es[..k]), es[k].entry);
    assert ValidEntry(numbered, errors);
    KeyNames(numbered, e, errors);
  }

  lemma RepeatsNext(encode: Encoder, errors: set<string>, es: seq<Event>, n: nat, e: Entry)
    ensures Repeats(encode, errors, es, n + 1, e) <==>
              || Repeats(encode, errors, es, n, e)
              || (StoredAt(encode, errors, es, n) && Critical(es[n].entry) && es[n].entry.section == e.section && es[n].entry.code == e.code)
  {
    hide StoredAt, Critical;
  }

  lemma TruncatesNext(encode: Encoder, errors: set<string>, es: seq<Event>, n: nat)
    ensures Truncates(encode, errors, es, n + 1) <==>
              || Truncates(encode, errors, es, n)
              || (StoredAt(encode, errors, es, n) && !Critical(es[n].entry) && IsMarker(LastStored(encode, errors, es, n)))
  {
    hide StoredAt, Critical, LastStored, IsMarker;
  }

  /** One call changes what is remembered exactly as the definitions say. */
  lemma MemoryNext(encode: Encoder, errors: set<string>, es: seq<Event>, n: nat)
    requires n < |es|
    ensures var l := Run(encode, errors, es[..n]); var v := Advance(l, encode, errors, es[n]);
            && v.critical == l.critical + (if StoredAt(encode, errors, es, n) && Critical(es[n].entry) then {Key(es[n].entry)} else {})
            && (v.truncated <==> l.truncated || (StoredAt(encode, errors, es, n) && !Critical(es[n].entry) && IsMarker(LastStored(encode, errors, es, n))))
  {
    hide ValidEntry, LimitFor, Run;
  }

  lemma RemembersNext(encode: Encoder, errors: set<string>, es: seq<Event>, n: nat)
    requires n < |es| && Remembers(Run(encode, errors, es[..n]), encode, errors, es, n)
    ensures Remembers(Advance(Run(encode, errors, es[..n]), encode, errors, es[n]), encode, errors, es, n + 1)
  {
    var l := Run(encode, errors, es[..n]);
    MemoryNext(encode, errors, es, n);
    TruncatesNext(encode, errors, es, n);
    hide Run, Advance, StoredAt, Truncates, LastStored, Critical, Repeats, Key, ValidEntry;
    forall e: Entry | ValidEntry(e, errors)
      ensures Key(e) in Advance(l, encode, errors, es[n]).critical <==> Repeats(encode, errors, es, n + 1, e)
    {
      RepeatsNext(encode, errors, es, n, e);
      if StoredAt(encode, errors, es, n) { StoredValid(encode, errors, es, n, e); }
    }
  }

  lemma NothingYet(encode: Encoder, errors: set<string>, es: seq<Event>)
    ensures Remembers(Run(encode, errors, es[..0]), encode, errors, es, 0)
  {
    hide StoredAt, ValidEntry, LastStored, Key;
    assert es[..0] == [];
  }

  lemma {:induction false} MemoryAt(encode: Encoder, errors: set<string>, es: seq<Event>, n: nat)
    requires n <= |es|
    ensures Remembers(Run(encode, errors, es[..n]), encode, errors, es, n)
  {
    hide *;
    if n == 0 {
      NothingYet(encode, errors, es);
    } else {
      MemoryAt(encode, errors, es, n - 1);
      RunAt(encode, errors, es, n - 1);
      RemembersNext(encode, errors, es, n - 1);
    }
  }

  /**
    After every run, an entry is ignored exactly if it is valid and either critical with
    the section and code of one already stored, or progress after the truncation.
   */
  lemma IgnoredIff(encode: Encoder, errors: set<string>, es: seq<Event>, entry: Entry, configured: Option<nat>)
    ensures var l := Run(encode, errors, es);
            AppendOutcome(l, encode, errors, entry, configured) == Ignored <==>
              && ValidEntry(Numbered(l, entry), errors)
              && if Critical(entry) then Repeats(encode, errors, es, |es|, entry) else Truncates(encode, errors, es, |es|)
  {
    MemoryAt(encode, errors, es, |es|);
    assert es[..|es|] == es;
    var l := Run(encode, errors, es);
    assert Repeats(encode, errors, es, |es|, entry) == Repeats(encode, errors, es, |es|, Numbered(l, entry)) by { hide StoredAt, Critical; }
    hide Run, Repeats, Truncates, ValidEntry, Key, ToStore;
  }

  // ----- deliveries -----

  /** Call k marked entries sent that it could: none beyond those stored before it. */
  predicate SentAt(encode: Encoder, errors: set<string>, es: seq<Event>, k: int) {
    0 <= k < |es| && es[k].Sent? && es[k].through <= |Run(encode, errors, es[..k]).history|
  }

  predicate LastSent(encode: Encoder, errors: set<string>, es: seq<Event>, n: nat, k: int) {
    k < n && SentAt(encode, errors, es, k) && forall i :: k < i < n ==> !SentAt(encode, errors, es, i)
  }

  /** The mark is that of the last such call, and zero before the first. */
  ghost predicate MarkIs(encode: Encoder, errors: set<string>, es: seq<Event>, n: nat, sent: nat) {
    && (forall k :: LastSent(encode, errors, es, n, k) ==> es[k].through == sent)
    && ((forall i :: 0 <= i < n ==> !SentAt(encode, errors, es, i)) ==> sent == 0)
    && (sent > 0 ==> exists k :: LastSent(encode, errors, es, n, k))
  }

  lemma MarkNext(encode: Encoder, errors: set<string>, es: seq<Event>, n: nat, sent: nat)
    requires n < |es| && MarkIs(encode, errors, es, n, sent)
    ensures MarkIs(encode, errors, es, n + 1, if SentAt(encode, errors, es, n) then es[n].through else sent)
  {
    if SentAt(encode, errors, es, n) {
      hide SentAt;
      assert LastSent(encode, errors, es, n + 1, n);
    } else {
      assert forall k :: LastSent(encode, errors, es, n, k) <==> LastSent(encode, errors, es, n + 1, k) by { hide SentAt; }
      hide SentAt, LastSent;
    }
  }

  lemma SentStep(l: Log, encode: Encoder, errors: set<string>, e: Event)
    ensures Advance(l, encode, errors, e).sent == if e.Sent? && e.through <= l.next then e.through else l.sent
  {
    hide AppendOutcome;
  }

  lemma {:induction false} MarkAt(encode: Encoder, errors: set<string>, es: seq<Event>, n: nat)
    requires n <= |es|
    ensures MarkIs(encode, errors, es, n, Run(encode, errors, es[..n]).sent)
  {
    hide Advance, Sized;
    if n == 0 {
      assert es[..0] == [];
    } else {
      MarkAt(encode, errors, es, n - 1);
      RunAt(encode, errors, es, n - 1);
      RunKeeps(encode, errors, es[..n - 1]);
      MarkNext(encode, errors, es, n - 1, Run(encode, errors, es[..n - 1]).sent);
      SentStep(Run(encode, errors, es[..n - 1]), encode, errors, es[n - 1]);
      hide MarkIs, Run;
    }
  }

  /** After every run, an acknowledgement is taken exactly if the last mark of sent entries covers it. */
  lemma TakenIff(encode: Encoder, errors: set<string>, es: seq<Event>, through: nat)
    ensures Acknowledges(Run(encode, errors, es), through) <==>
              through == 0 || exists k :: LastSent(encode, errors, es, |es|, k) && through <= es[k].through
  {
    MarkAt(encode, errors, es, |es|);
    RunKeeps(encode, errors, es);
    assert es[..|es|] == es;
    hide Run, Sized, LastSent;
  }

  predicate AckedAt(encode: Encoder, errors: set<string>, es: seq<Event>, k: int) {
    0 <= k < |es| && es[k].Acked? && Acknowledges(Run(encode, errors, es[..k]), es[k].through)
  }

  /** The acknowledged prefix is the longest one that was taken. */
  ghost predicate PrefixIs(encode: Encoder, errors: set<string>, es: seq<Event>, n: nat, ack: nat) {
    && (forall k :: 0 <= k < n && AckedAt(encode, errors, es, k) ==> es[k].through <= ack)
    && (ack > 0 ==> exists k :: 0 <= k < n && AckedAt(encode, errors, es, k) && es[k].through == ack)
  }

  lemma AckStep(l: Log, encode: Encoder, errors: set<string>, e: Event)
    ensures Advance(l, encode, errors, e).ack == if e.Acked? && Acknowledges(l, e.through) && e.through > l.ack then e.through else l.ack
  {
    hide AppendOutcome;
  }

  lemma PrefixNext(encode: Encoder, errors: set<string>, es: seq<Event>, n: nat, ack: nat)
    requires n < |es| && PrefixIs(encode, errors, es, n, ack)
    ensures PrefixIs(encode, errors, es, n + 1, if AckedAt(encode, errors, es, n) && es[n].through > ack then es[n].through else ack)
  {
    assert AckedAt(encode, errors, es, n) ==> es[n].Acked?;
    hide AckedAt;
  }

  lemma {:induction false} PrefixAt(encode: Encoder, errors: set<string>, es: seq<Event>, n: nat)
    requires n <= |es|
    ensures PrefixIs(encode, errors, es, n, Run(encode, errors, es[..n]).ack)
  {
    hide Acknowledges, Advance;
    if n == 0 {
      assert es[..0] == [];
    } else {
      PrefixAt(encode, errors, es, n - 1);
      RunAt(encode, errors, es, n - 1);
      AckStep(Run(encode, errors, es[..n - 1]), encode, errors, es[n - 1]);
      PrefixNext(encode, errors, es, n - 1, Run(encode, errors, es[..n - 1]).ack);
      hide Run, PrefixIs;
    }
  }

  /**
    Over every run: the log still holds exactly the entries after the longest prefix
    whose acknowledgement was taken.
   */
  lemma HeldIff(encode: Encoder, errors: set<string>, es: seq<Event>, i: nat)
    ensures var l := Run(encode, errors, es);
            i in l.entries <==> 1 <= i <= |l.history| && forall k :: AckedAt(encode, errors, es, k) ==> es[k].through < i
  {
    PrefixAt(encode, errors, es, |es|);
    RunKeeps(encode, errors, es);
    assert es[..|es|] == es;
    hide Run, Sized;
    assert forall k :: AckedAt(encode, errors, es, k) ==> 0 <= k < |es|;
    hide AckedAt;
  }
}
