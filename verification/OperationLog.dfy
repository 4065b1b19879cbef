/** The bounded local log of one operation and its acknowledged delivery. */
module LogSpec {
  import opened Basics

  const DEFAULT_LIMIT := 10485760
  const MIN_LIMIT := 65536
  const RESERVE := 16384
  const MAX_CHUNK := 32768
  const MAX_ENTRIES := 200
  const MAX_SEQUENCE := 0x4000_0000_0000_0000
  const MAX_COUNTER := 0x7fff_ffff_ffff_ffff
  const MAX_ENTRY := 512

  datatype Entry = Entry(sequence: nat, section: string, level: string, code: string, files: int, bytes: int)

  type Encoder = Entry -> string

  predicate KnownCode(code: string) {
    code in {"BACKUP_STARTED", "BACKUP_PROGRESS", "BACKUP_SUMMARY", "BACKUP_SUCCEEDED", "BACKUP_SUCCEEDED_WITH_WARNINGS",
             "HOOK_STARTED", "HOOK_FINISHED", "ENGINE_READ_ERROR", "LOG_TRUNCATED"}
  }

  /** `errors` are the error codes of the backup vocabulary. */
  predicate ValidEntry(e: Entry, errors: set<string>) {
    && 1 <= e.sequence <= MAX_SEQUENCE && e.files >= 0 && e.bytes >= 0
    && e.section in {"backup", "pre_hook", "post_hook", "agent"} && e.level in {"INFO", "WARN", "ERROR"}
    && (KnownCode(e.code) || (e.code != "" && e.code in errors))
  }

  predicate Critical(e: Entry) {
    e.code != "BACKUP_PROGRESS"
  }

  function Key(e: Entry): string {
    e.section + ":" + e.code
  }

  /** `history` holds every entry ever stored; `entries` those not yet acknowledged. */
  datatype Log = Log(next: nat, ack: nat, bytes: nat, limit: nat, truncated: bool, critical: set<string>, sent: nat,
                     entries: map<nat, Entry>, history: seq<Entry>)

  function Empty(): Log {
    Log(0, 0, 0, 0, false, {}, 0, map[], [])
  }

  /** A configured limit outside its range falls back to the default. */
  function LimitFor(l: Log, configured: Option<nat>): nat {
    if l.limit != 0 then l.limit
    else if configured.Some? && MIN_LIMIT <= configured.value <= DEFAULT_LIMIT then configured.value
    else DEFAULT_LIMIT
  }

  datatype Outcome = Stored | Ignored | Invalid | Full

  /** The entry as it is numbered, and as it is stored: progress that no longer fits becomes the marker. */
  function Numbered(l: Log, e: Entry): Entry {
    e.(sequence := l.next + 1)
  }

  predicate Overflows(l: Log, limit: nat, encode: Encoder, e: Entry) {
    !Critical(e) && l.bytes + |encode(e)| > limit - RESERVE
  }

  function MarkerOf(e: Entry): Entry {
    e.(code := "LOG_TRUNCATED", level := "WARN")
  }

  function ToStore(l: Log, limit: nat, encode: Encoder, e: Entry): Entry {
    if Overflows(l, limit, encode, e) then MarkerOf(e) else e
  }

  function AppendOutcome(l: Log, encode: Encoder, errors: set<string>, entry: Entry, configured: Option<nat>): Outcome {
    var e := Numbered(l, entry);
    var limit := LimitFor(l, configured);
    if !ValidEntry(e, errors) then Invalid
    else if Critical(e) && Key(e) in l.critical then Ignored
    else if !Critical(e) && l.truncated then Ignored
    else if l.bytes + |encode(ToStore(l, limit, encode, e))| > limit then Full
    else Stored
  }

  function Append(l: Log, encode: Encoder, errors: set<string>, entry: Entry, configured: Option<nat>): Log {
    var e := Numbered(l, entry);
    var limit := LimitFor(l, configured);
    if AppendOutcome(l, encode, errors, entry, configured) != Stored then l
    else
      var s := ToStore(l, limit, encode, e);
      Log(e.sequence, l.ack, l.bytes + |encode(s)|, limit, l.truncated || Overflows(l, limit, encode, e),
          if Critical(e) then l.critical + {Key(e)} else l.critical, l.sent, l.entries[e.sequence := s], l.history + [s])
  }

  function MarkSent(l: Log, through: nat): Log {
    if through > l.next then l else l.(sent := through)
  }

  predicate Acknowledges(l: Log, through: nat) {
    through <= l.sent && through <= l.next
  }

  function Acknowledge(l: Log, through: nat): Log {
    if !Acknowledges(l, through) || through <= l.ack then l
    else l.(ack := through, entries := map k | k in l.entries && k > through :: l.entries[k])
  }

  // ----- sizes -----

  predicate IsMarker(e: Entry) {
    e.code == "LOG_TRUNCATED"
  }

  function Total(h: seq<Entry>, encode: Encoder): nat {
    if h == [] then 0 else Total(h[..|h| - 1], encode) + |encode(h[|h| - 1])|
  }

  function ProgressBytes(h: seq<Entry>, encode: Encoder): nat {
    if h == [] then 0
    else ProgressBytes(h[..|h| - 1], encode) + if Critical(h[|h| - 1]) then 0 else |encode(h[|h| - 1])|
  }

  /** The bytes of critical entries and of the marker. */
  function ReservedBytes(h: seq<Entry>, encode: Encoder): nat {
    if h == [] then 0
    else ReservedBytes(h[..|h| - 1], encode) + if Critical(h[|h| - 1]) then |encode(h[|h| - 1])| else 0
  }

  lemma {:induction false} TotalSplits(h: seq<Entry>, encode: Encoder)
    ensures Total(h, encode) == ProgressBytes(h, encode) + ReservedBytes(h, encode)
  {
    if h != [] { TotalSplits(h[..|h| - 1], encode); }
  }

  // ----- runs -----

  datatype Event = Appended(entry: Entry, configured: Option<nat>) | Sent(through: nat) | Acked(through: nat)

  function Advance(l: Log, encode: Encoder, errors: set<string>, e: Event): Log {
    match e
    case Appended(entry, configured) => Append(l, encode, errors, entry, configured)
    case Sent(through) => MarkSent(l, through)
    case Acked(through) => Acknowledge(l, through)
  }

  function Run(encode: Encoder, errors: set<string>, es: seq<Event>): Log {
    if es == [] then Empty() else Advance(Run(encode, errors, es[..|es| - 1]), encode, errors, es[|es| - 1])
  }

  /** Stored entries are exactly the numbers after `ack` up to `next`, as they were appended. */
  ghost predicate Windowed(l: Log) {
    && l.next == |l.history| && l.ack <= l.next && l.sent <= l.next
    && (forall i :: 0 <= i < |l.history| ==> l.history[i].sequence == i + 1)
    && (forall k :: k in l.entries <==> l.ack < k <= l.next)
    && (forall k :: k in l.entries ==> l.entries[k] == l.history[k - 1])
  }

  predicate Sized(l: Log, encode: Encoder) {
    && l.bytes == Total(l.history, encode)
    && (if l.limit == 0 then l.history == [] else MIN_LIMIT <= l.limit <= DEFAULT_LIMIT && l.bytes <= l.limit)
    && (l.limit != 0 ==> ProgressBytes(l.history, encode) <= l.limit - RESERVE)
  }

  lemma LastDropped(h: seq<Entry>, s: Entry)
    ensures (h + [s])[..|h + [s]| - 1] == h && (h + [s])[|h|] == s
  {
  }

  lemma AppendWindowed(l: Log, encode: Encoder, errors: set<string>, entry: Entry, configured: Option<nat>)
    requires Windowed(l)
    ensures Windowed(Append(l, encode, errors, entry, configured))
  {
    hide Overflows, ValidEntry, LimitFor;
  }

  lemma AppendSized(l: Log, encode: Encoder, errors: set<string>, entry: Entry, configured: Option<nat>)
    requires Sized(l, encode)
    ensures Sized(Append(l, encode, errors, entry, configured), encode)
  {
    hide ValidEntry;
    var limit := LimitFor(l, configured);
    var s := ToStore(l, limit, encode, Numbered(l, entry));
    LastDropped(l.history, s);
    TotalSplits(l.history, encode);
  }

  lemma StepKeeps(l: Log, encode: Encoder, errors: set<string>, e: Event)
    requires Windowed(l) && Sized(l, encode)
    ensures Windowed(Advance(l, encode, errors, e)) && Sized(Advance(l, encode, errors, e), encode)
  {
    match e
    case Appended(entry, configured) =>
      AppendWindowed(l, encode, errors, entry, configured);
      AppendSized(l, encode, errors, entry, configured);
      hide Append;
    case Sent(through) => SentKeeps(l, encode, through); hide Windowed;
    case Acked(through) => AckKeeps(l, encode, through); hide Windowed;
  }

  lemma SentKeeps(l: Log, encode: Encoder, through: nat)
    requires Windowed(l) && Sized(l, encode)
    ensures Windowed(MarkSent(l, through)) && Sized(MarkSent(l, through), encode)
  {
    hide Total, ProgressBytes;
  }

  lemma AckKeeps(l: Log, encode: Encoder, through: nat)
    requires Windowed(l) && Sized(l, encode)
    ensures Windowed(Acknowledge(l, through)) && Sized(Acknowledge(l, through), encode)
  {
    hide Total, ProgressBytes;
  }

  /** After every run: the window is exact, and the bytes stay within the limit with the reserve kept free of progress. */
  lemma {:induction false} RunKeeps(encode: Encoder, errors: set<string>, es: seq<Event>)
    ensures Windowed(Run(encode, errors, es)) && Sized(Run(encode, errors, es), encode)
  {
    if es != [] {
      RunKeeps(encode, errors, es[..|es| - 1]);
      StepKeeps(Run(encode, errors, es[..|es| - 1]), encode, errors, es[|es| - 1]);
      hide Advance, Windowed, Sized;
    }
  }

  /** An append fails for space only if critical entries and the marker together outgrow the reserve. */
  lemma {:induction false} FullOnlyBeyondReserve(encode: Encoder, errors: set<string>, es: seq<Event>, entry: Entry, configured: Option<nat>)
    requires var l := Run(encode, errors, es); AppendOutcome(l, encode, errors, entry, configured) == Full
    ensures var l := Run(encode, errors, es);
            var s := ToStore(l, LimitFor(l, configured), encode, Numbered(l, entry));
            Critical(s) && ReservedBytes(l.history, encode) + |encode(s)| > RESERVE
  {
    var l := Run(encode, errors, es);
    RunKeeps(encode, errors, es);
    TotalSplits(l.history, encode);
    hide ValidEntry, Windowed, Run;
  }

  // ----- the truncation marker -----

  /** No caller submits the marker itself. */
  predicate Unforged(es: seq<Event>) {
    forall i :: 0 <= i < |es| && es[i].Appended? ==> !IsMarker(es[i].entry)
  }

  /** With the marker at m: it is the only one, and no progress follows it. */
  predicate MarkedAt(h: seq<Entry>, m: int) {
    && 0 <= m < |h| && IsMarker(h[m])
    && forall i :: 0 <= i < |h| && i != m ==> !IsMarker(h[i]) && (i > m ==> Critical(h[i]))
  }

  predicate Marked(l: Log) {
    if l.truncated then exists m :: 0 <= m < |l.history| && MarkedAt(l.history, m)
    else forall i :: 0 <= i < |l.history| ==> !IsMarker(l.history[i])
  }

  lemma AppendMarked(l: Log, encode: Encoder, errors: set<string>, entry: Entry, configured: Option<nat>)
    requires Marked(l) && !IsMarker(entry)
    ensures Marked(Append(l, encode, errors, entry, configured))
  {
    hide ValidEntry, LimitFor;
    var v := Append(l, encode, errors, entry, configured);
    if v.history != l.history {
      if l.truncated {
        var m :| 0 <= m < |l.history| && MarkedAt(l.history, m);
        assert MarkedAt(v.history, m);
      } else if v.truncated {
        assert MarkedAt(v.history, |l.history|);
      }
    }
  }

  /** At most one truncation marker is ever stored, and no progress after it. */
  lemma {:induction false} OneMarker(encode: Encoder, errors: set<string>, es: seq<Event>)
    requires Unforged(es)
    ensures Marked(Run(encode, errors, es))
  {
    if es != [] {
      var l, e := Run(encode, errors, es[..|es| - 1]), es[|es| - 1];
      OneMarker(encode, errors, es[..|es| - 1]);
      if e.Appended? { AppendMarked(l, encode, errors, e.entry, e.configured); }
      hide Append;
    }
  }

  predicate AtMostOneMarker(h: seq<Entry>) {
    forall i, j :: 0 <= i < j < |h| ==> !(IsMarker(h[i]) && IsMarker(h[j]))
  }

  predicate NoProgressAfterMarker(h: seq<Entry>) {
    forall i, j :: 0 <= i < j < |h| ==> !(IsMarker(h[i]) && !Critical(h[j]))
  }

  predicate Submits(es: seq<Event>, codes: set<string>) {
    forall i :: 0 <= i < |es| && es[i].Appended? ==> es[i].entry.code in codes
  }

  /** An entry is a JSON object of seven short fields: its counters have 64 bits, its words are from a fixed vocabulary. */
  ghost predicate Compact(encode: Encoder, errors: set<string>) {
    forall e: Entry :: ValidEntry(e, errors) && e.files <= MAX_COUNTER && e.bytes <= MAX_COUNTER && (IsMarker(e) || !Critical(e)) ==>
      0 < |encode(e)| <= MAX_ENTRY
  }

  const FORGED := Appended(Entry(0, "agent", "WARN", "LOG_TRUNCATED", 0, 0), Some(MIN_LIMIT))
  const PROGRESS := Appended(Entry(0, "backup", "INFO", "BACKUP_PROGRESS", 0, 0), Some(MIN_LIMIT))

  /** A log that begins with a submitted marker and has room for progress. */
  predicate Filling(l: Log) {
    && l.limit == MIN_LIMIT && !l.truncated && l.history != [] && IsMarker(l.history[0])
    && l.next <= l.bytes <= MIN_LIMIT - RESERVE
  }

  lemma ForgedFills(encode: Encoder, errors: set<string>)
    requires Compact(encode, errors)
    ensures Filling(Advance(Empty(), encode, errors, FORGED)) && Advance(Empty(), encode, errors, FORGED).bytes <= MAX_ENTRY
    ensures |Advance(Empty(), encode, errors, FORGED).history| == 1
  {
    assert ValidEntry(Numbered(Empty(), FORGED.entry), errors);
  }

  /** Each further progress entry takes some of the room, until one becomes a second marker. */
  lemma ProgressFills(l: Log, encode: Encoder, errors: set<string>)
    requires Compact(encode, errors) && Filling(l)
    ensures var v := Advance(l, encode, errors, PROGRESS); var e := Numbered(l, PROGRESS.entry);
            if Overflows(l, MIN_LIMIT, encode, e) then v.history == l.history + [MarkerOf(e)]
            else Filling(v) && l.bytes < v.bytes && v.history == l.history + [e]
  {
    var e := Numbered(l, PROGRESS.entry);
    assert ValidEntry(e, errors) && ValidEntry(MarkerOf(e), errors);
    assert 0 < |encode(e)| <= MAX_ENTRY && 0 < |encode(MarkerOf(e))| <= MAX_ENTRY;
    hide ValidEntry;
  }

  lemma RunMore(encode: Encoder, errors: set<string>, es: seq<Event>, e: Event)
    ensures Run(encode, errors, es + [e]) == Advance(Run(encode, errors, es), encode, errors, e)
  {
    assert (es + [e])[..|es + [e]| - 1] == es;
  }

  lemma {:induction false} FillUp(encode: Encoder, errors: set<string>, es: seq<Event>, codes: set<string>) returns (more: seq<Event>)
    requires Compact(encode, errors) && Filling(Run(encode, errors, es)) && Submits(es, codes) && "BACKUP_PROGRESS" in codes
    ensures Submits(more, codes) && !AtMostOneMarker(Run(encode, errors, more).history)
    decreases MIN_LIMIT - Run(encode, errors, es).bytes
  {
    var l := Run(encode, errors, es);
    more := es + [PROGRESS];
    RunMore(encode, errors, es, PROGRESS);
    ProgressFills(l, encode, errors);
    hide Advance, Overflows;
    if Overflows(l, MIN_LIMIT, encode, Numbered(l, PROGRESS.entry)) {
      var h := Run(encode, errors, more).history;
      assert IsMarker(h[0]) && IsMarker(h[|l.history|]);
    } else {
      more := FillUp(encode, errors, more, codes);
    }
  }

  /**
    Nothing in the log itself refuses a submitted marker: after one, progress follows it,
    and enough progress makes a second.
   */
  lemma {:induction false} ForgedMarkerRepeats(encode: Encoder, errors: set<string>, codes: set<string>)
    requires Compact(encode, errors) && "BACKUP_PROGRESS" in codes && "LOG_TRUNCATED" in codes
    ensures exists es :: Submits(es, codes) && !AtMostOneMarker(Run(encode, errors, es).history)
    ensures exists es :: Submits(es, codes) && !NoProgressAfterMarker(Run(encode, errors, es).history)
  {
    ForgedFills(encode, errors);
    RunMore(encode, errors, [], FORGED);
    assert Run(encode, errors, [] + [FORGED]) == Advance(Empty(), encode, errors, FORGED);
    var l := Run(encode, errors, [] + [FORGED]);
    var more := FillUp(encode, errors, [] + [FORGED], codes);
    ProgressFollows(encode, errors, l);
    RunMore(encode, errors, [] + [FORGED], PROGRESS);
    assert Submits([] + [FORGED] + [PROGRESS], codes);
  }

  lemma ProgressFollows(encode: Encoder, errors: set<string>, l: Log)
    requires Compact(encode, errors) && Filling(l) && l.bytes <= MAX_ENTRY && |l.history| == 1
    ensures !NoProgressAfterMarker(Advance(l, encode, errors, PROGRESS).history)
  {
    ProgressFills(l, encode, errors);
    var e := Numbered(l, PROGRESS.entry);
    assert ValidEntry(e, errors);
    assert |encode(e)| <= MAX_ENTRY;
    hide Advance;
    var h := Advance(l, encode, errors, PROGRESS).history;
    assert IsMarker(h[0]) && !Critical(h[1]);
  }

  /**
    Callers that also report progress get, in every run, at most one marker exactly when
    none of them may submit it; and the same condition keeps progress from following it.
   */
  lemma {:induction false} OneMarkerIffNotSubmitted(encode: Encoder, errors: set<string>, codes: set<string>)
    requires Compact(encode, errors) && "BACKUP_PROGRESS" in codes
    ensures (forall es :: Submits(es, codes) ==> AtMostOneMarker(Run(encode, errors, es).history)) <==> "LOG_TRUNCATED" !in codes
    ensures (forall es :: Submits(es, codes) ==> NoProgressAfterMarker(Run(encode, errors, es).history)) <==> "LOG_TRUNCATED" !in codes
  {
    hide Run, AtMostOneMarker, NoProgressAfterMarker;
    if "LOG_TRUNCATED" in codes {
      ForgedMarkerRepeats(encode, errors, codes);
    } else {
      forall es | Submits(es, codes)
        ensures AtMostOneMarker(Run(encode, errors, es).history) && NoProgressAfterMarker(Run(encode, errors, es).history)
      {
        OneMarker(encode, errors, es);
        MarkedMeans(Run(encode, errors, es));
      }
    }
  }

  lemma MarkedMeans(l: Log)
    requires Marked(l)
    ensures AtMostOneMarker(l.history) && NoProgressAfterMarker(l.history)
  {
  }

  // ----- delivery -----

  /** Entries first .. last as one JSON array. */
  function Joined(encode: Encoder, h: seq<Entry>, first: nat, last: nat): string
    requires 1 <= first <= last + 1 <= |h| + 1
    decreases last
  {
    if last < first then ""
    else if last == first then encode(h[last - 1])
    else Joined(encode, h, first, last - 1) + "," + encode(h[last - 1])
  }

  /** The text of a chunk that is still open, with one more entry. */
  function Extended(json: string, v: string, empty: bool): string {
    if empty then json + v else json + "," + v
  }

  lemma JoinedNext(encode: Encoder, h: seq<Entry>, first: nat, last: nat, json: string)
    requires 1 <= first <= last + 1 <= |h| && json == "[" + Joined(encode, h, first, last)
    ensures Extended(json, encode(h[last]), last < first) == "[" + Joined(encode, h, first, last + 1)
  {
    var v := encode(h[last]);
    if last < first {
      assert json == "[" && Joined(encode, h, first, last + 1) == v;
    } else {
      assert Joined(encode, h, first, last + 1) == Joined(encode, h, first, last) + "," + v;
    }
  }

  lemma JoinedNone(encode: Encoder, h: seq<Entry>, first: nat)
    requires 1 <= first <= |h| + 1
    ensures Joined(encode, h, first, first - 1) == ""
  {
  }

  /** The entries from number k on. */
  function From(es: map<nat, Entry>, k: nat): map<nat, Entry> {
    map i | i in es && i >= k :: es[i]
  }

  lemma FromNext(es: map<nat, Entry>, k: nat)
    ensures From(es, k) - {k} == From(es, k + 1)
  {
  }

  lemma FromAck(l: Log)
    requires Windowed(l)
    ensures From(l.entries, l.ack + 1) == l.entries
  {
  }

  lemma AckedFrom(l: Log, through: nat)
    requires Acknowledges(l, through) && through > l.ack
    ensures Acknowledge(l, through) == l.(ack := through, entries := From(l.entries, through + 1))
  {
    assert From(l.entries, through + 1) == map k | k in l.entries && k > through :: l.entries[k];
  }

  lemma EntryAt(l: Log, k: nat)
    requires Windowed(l) && l.ack < k <= l.next
    ensures l.next == |l.history| && k in l.entries && l.entries[k] == l.history[k - 1]
  {
  }
}

module OperationLog {
  import opened Basics
  import opened Spec = LogSpec

  datatype Chunk = Chunk(first: nat, last: nat, json: string)

  class LocalLog {
    const encode: Encoder
    const errors: set<string>
    var next: nat
    var ack: nat
    var bytes: nat
    var limit: nat
    var truncated: bool
    var critical: set<string>
    var sent: nat
    var entries: map<nat, Entry>
    ghost var history: seq<Entry>

    ghost function Abs(): Log
      reads this
    {
      Log(next, ack, bytes, limit, truncated, critical, sent, entries, history)
    }

    constructor (encode: Encoder, errors: set<string>)
      ensures this.encode == encode && this.errors == errors && Abs() == Empty()
    {
      this.encode, this.errors := encode, errors;
      next, ack, bytes, limit, truncated, critical, sent, entries, history := 0, 0, 0, 0, false, {}, 0, map[], [];
    }

    method Append(entry: Entry, configured: Option<nat>) returns (r: Outcome)
      modifies this
      ensures Abs() == Spec.Append(old(Abs()), encode, errors, entry, configured)
      ensures r == AppendOutcome(old(Abs()), encode, errors, entry, configured)
    {
      hide ValidEntry, Key, Critical, MarkerOf;
      var e := entry.(sequence := next + 1);
      if !ValidEntry(e, errors) { return Invalid; }
      if Critical(e) && Key(e) in critical { return Ignored; }
      var bound := limit;
      if bound == 0 {
        bound := DEFAULT_LIMIT;
        if configured.Some? { bound := configured.value; }
        if bound < MIN_LIMIT || bound > DEFAULT_LIMIT { bound := DEFAULT_LIMIT; }
      }
      if !Critical(e) && truncated { return Ignored; }
      var s := e;
      var marks := !Critical(e) && bytes + |encode(e)| > bound - RESERVE;
      if marks { s := MarkerOf(e); }
      if bytes + |encode(s)| > bound { return Full; }
      Put(e, s, bound, marks);
      return Stored;
    }

    /** The transaction's writes: the entry, and the metadata that numbers and measures it. */
    method Put(e: Entry, s: Entry, bound: nat, marks: bool)
      modifies this
      ensures Abs() == Log(e.sequence, old(ack), old(bytes) + |encode(s)|, bound, old(truncated) || marks,
                           if Critical(e) then old(critical) + {Key(e)} else old(critical), old(sent),
                           old(entries)[e.sequence := s], old(history) + [s])
    {
      entries := entries[e.sequence := s];
      history := history + [s];
      next, bytes, limit, truncated := e.sequence, bytes + |encode(s)|, bound, truncated || marks;
      if Critical(e) { critical := critical + {Key(e)}; }
    }

    /**
      The next chunk to send: contiguous from the first unacknowledged entry, at most
      200 entries and 32 KiB, and none exactly when nothing is pending or the first
      entry alone is too large.
     */
    method PendingChunk() returns (c: Option<Chunk>)
      requires Windowed(Abs())
      ensures c.Some? <==> ack < next && |encode(history[ack])| + 3 <= MAX_CHUNK
      ensures c.Some? ==>
                && c.value.first == ack + 1 && ack < c.value.last <= next && c.value.last - ack <= MAX_ENTRIES
                && c.value.json == "[" + Joined(encode, history, c.value.first, c.value.last) + "]" && |c.value.json| <= MAX_CHUNK
                && (c.value.last < next ==> c.value.last - ack == MAX_ENTRIES || |c.value.json| + |encode(history[c.value.last])| + 1 > MAX_CHUNK)
    {
      if ack >= next { return None; }
      EntryAt(Abs(), ack + 1);
      hide Windowed, Joined;
      var first := ack + 1;
      var last := ack;
      var json := "[";
      JoinedNone(encode, history, first);
      while last < next
        invariant ack <= last <= next && last - ack <= MAX_ENTRIES
        invariant json == "[" + Joined(encode, history, first, last) && |json| + 1 <= MAX_CHUNK
        invariant last > ack ==> |encode(history[ack])| + 3 <= MAX_CHUNK
      {
        EntryAt(Abs(), last + 1);
        var v := encode(entries[last + 1]);
        if |json| + |v| + 2 > MAX_CHUNK || (last != ack && last >= first + 199) { break; }
        JoinedNext(encode, history, first, last, json);
        json := Extended(json, v, last == ack);
        last := last + 1;
      }
      if last == ack { return None; }
      return Some(Chunk(first, last, json + "]"));
    }

    method MarkSent(through: nat) returns (ok: bool)
      modifies this
      ensures Abs() == Spec.MarkSent(old(Abs()), through) && ok == (through <= next)
    {
      if through > next { return false; }
      sent := through;
      return true;
    }

    /** Deletes exactly the acknowledged prefix, in key order. */
    method Acknowledge(through: nat) returns (ok: bool)
      requires Windowed(Abs())
      modifies this
      ensures Abs() == Spec.Acknowledge(old(Abs()), through) && ok == Acknowledges(old(Abs()), through)
    {
      if through > sent || through > next { return false; }
      if through <= ack { return true; }
      FromAck(Abs());
      hide Windowed, From;
      var k := ack + 1;
      while k <= through
        invariant ack < k <= through + 1
        invariant Abs() == old(Abs()).(entries := entries)
        invariant entries == From(old(entries), k)
      {
        FromNext(old(entries), k);
        entries := entries - {k};
        k := k + 1;
      }
      AckedFrom(old(Abs()), through);
      ack := through;
      return true;
    }
  }
}
