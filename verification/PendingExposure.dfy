/**
  Where the queue's durability ends. Recovery trusts a receipt that it can read,
  which need not be durable: a process that stops between renaming the receipt
  and syncing the directory leaves it visible only. If recovery then removes the
  covered record and power is lost before its own sync, the file system may keep
  the removal and lose the receipt.
 */
module PendingExposure {
  import opened Basics
  import opened PendingNames
  import opened SortedNames
  import opened PendingStore
  import opened PendingSpec
  import opened PendingLayout
  import opened PendingRecovery
  import opened PendingPower
  import opened PendingRuns

  lemma {:induction false} ListNames(s: set<string>) returns (names: seq<string>)
    ensures Distinct(names) && Elements(names) == s
  {
    if s == {} {
      names := [];
    } else {
      var x :| x in s;
      var rest := ListNames(s - {x});
      names := rest + [x];
      assert x !in Elements(rest) && Elements(names) == Elements(rest) + {x};
    }
  }

  lemma RunSnoc(w: World, id: Identity, es: seq<Event>, e: Event)
    ensures Run(w, id, es + [e]) == Advance(Run(w, id, es), id, e)
  {
    hide Advance;
    assert (es + [e])[..|es|] == es;
  }

  function Wire1(id: Identity): Wire {
    Wire(Header(id.binding, 7, 1, ZeroHash), Audit("session_start", 0), id.source, 100)
  }

  function Receipt1(id: Identity): Blob {
    ReceiptBlob(Receipt(SubjectOf(id.binding), 1, 7, HashOf(Wire1(id))), id.confirmation, 100)
  }

  const Append1 := AppendEvent(Draft(Audit("session_start", 0), None, 7, 100, true), Outcome(5, true))

  lemma AfterAppend(id: Identity) returns (w: World, s: Shape)
    requires id.Valid()
    ensures w == Run(Created(id), id, [Append1]) && w.up && !w.q.failed && !w.q.closed && w.accepted == [Wire1(id)] && w.orderly
    ensures Holds(w, id, s) && s == Shape([Wire1(id)], 0, {}, None, 1, {}, None) && w.q.files == [RecordName(1)]
  {
    hide RecordName, Kept, Explains, Accepts, Bytes, ApplyAll, Mirror;
    var s0, w0 := StartShape(id);
    var d := Append1.draft;
    FirstAccepted(id);
    StoredHolds(w0, id, s0, w0.q, d, Append1.outcome);
    w, s := AfterStore(w0, id, w0.q, d, Append1.outcome), AppendShape(s0, Wire1(id), 5);
    assert Run(w0, id, []) == w0 && [] + [Append1] == [Append1];
    RunSnoc(w0, id, [], Append1);
  }

  lemma StartShape(id: Identity) returns (s: Shape, w: World)
    requires id.Valid()
    ensures w == Created(id) && s == Shape([], 0, {}, None, 0, {}, None) && Holds(w, id, s)
  {
    s, w := Shape([], 0, {}, None, 0, {}, None), Created(id);
    assert Laid(w.disk.cache, id, [], {}, None) && Explains(s, w.disk, id);
  }

  lemma FirstAccepted(id: Identity)
    requires id.Valid()
    ensures Accepts(Fresh(), id, Append1.draft) == Some(Wire1(id))
  {
  }

  /** One record appended and then acknowledged, up to the rename of the receipt. */
  lemma AfterRename(id: Identity) returns (w: World, s: Shape)
    requires id.Valid()
    ensures w == Run(Created(id), id, [Append1, AckEvent(Receipt1(id), Outcome(4, false))])
    ensures w.up && w.accepted == [Wire1(id)] && w.orderly && TMP !in w.disk.cache
    ensures Holds(w, id, s) && s == Shape([Wire1(id)], 0, {1}, Some(Receipt1(id)), 1, {}, None)
  {
    hide RecordName, Kept, Explains, Bytes, ApplyAll, Mirror, AckOf, View, Live, Marked;
    var w1, s1 := AfterAppend(id);
    var e := AckEvent(Receipt1(id), Outcome(4, false));
    FirstAck(w1, id, s1);
    AckHolds(w1, id, s1, Receipt1(id), Outcome(4, false));
    w, s := Advance(w1, id, e), AckShape(s1, Receipt1(id), 4);
    assert [Append1] + [e] == [Append1, e];
    RunSnoc(Created(id), id, [Append1], e);
    RenamedAway(w1.disk, Receipt1(id), RecordName(1));
  }

  lemma FirstRead(w: World, id: Identity, s: Shape)
    requires Explains(s, w.disk, id) && s.log == [Wire1(id)] && s.rb == None && s.keep == {}
    ensures WireAt(View(w.disk), RecordName(1), id) == Some(Wire1(id))
  {
    hide RecordName, Laid, Chain, Bytes, Inspected, View, Lookup, Covers, WireAt, Wire1;
    RecordReadable(w.disk, id, s.log, s.keep, s.rb, 1);
    hide Readable;
    WireOfReadable(View(w.disk), id, s.log, 1);
  }

  lemma FirstFiles(w: World, s: Shape)
    requires 0 <= Acked(s.rb) <= |s.log| && Mirror(w.q, s) && |s.log| == 1 && s.rb == None
    ensures w.q.files == [RecordName(1)] && w.q.receipt == None
  {
    hide RecordName, Bytes, TailHash;
    assert Range(0, 1) == [1];
    assert NamesOf([1]) == [RecordName(1)];
  }

  lemma FirstReceipt(id: Identity)
    ensures Confirmed(Receipt1(id), id)
  {
  }

  lemma FirstAckOf(q: State, view: map<string, Blob>, id: Identity)
    requires !q.failed && !q.closed && q.files == [RecordName(1)] && q.receipt == None
    requires Confirmed(Receipt1(id), id) && WireAt(view, RecordName(1), id) == Some(Wire1(id))
    ensures AckOf(q, view, id, Receipt1(id)) == AckFirst(Wire1(id))
  {
    hide RecordName, Confirmed, WireAt, SubjectOf;
  }

  lemma FirstAck(w: World, id: Identity, s: Shape)
    requires Holds(w, id, s) && w.up && !w.q.failed && !w.q.closed && s.log == [Wire1(id)] && s.rb == None && s.keep == {}
    ensures AckOf(w.q, View(w.disk), id, Receipt1(id)) == AckFirst(Wire1(id))
  {
    hide RecordName, Kept, Marked, Explains, View, WireAt, Confirmed, AckOf, Mirror, Wire1, Receipt1;
    FirstRead(w, id, s);
    FirstFiles(w, s);
    FirstReceipt(id);
    FirstAckOf(w.q, View(w.disk), id);
  }

  lemma RenamedAway(d: Disk, b: Blob, name: string)
    ensures TMP !in ApplyAll(d, AckSteps(b, name)[..4]).cache
  {
    ApplyNext(d, AckSteps(b, name), 3);
    ApplyNext(d, AckSteps(b, name), 2);
  }

  /** Recovery then removes the record, and its own sync fails. */
  lemma AfterRemoval(id: Identity) returns (w: World, s: Shape, events: seq<Event>)
    requires id.Valid()
    ensures w == Run(Created(id), id, events) && !w.up && w.accepted == [Wire1(id)] && TMP !in w.disk.cache
    ensures Explains(s, w.disk, id) && s == Shape([Wire1(id)], 0, {}, Some(Receipt1(id)), 1, {}, None)
  {
    hide RecordName, Kept, Explains, Bytes, ApplyAll, Mirror, View, Live, Marked, Checked, Sort, NamesOf, Suffix, Sound, Ordered;
    var w2, s2 := AfterRename(id);
    events := [Append1, AckEvent(Receipt1(id), Outcome(4, false))];
    RunSnoc(Created(id), id, events, RestartEvent);
    var w3 := w2.(up := false);
    var names := ListNames(w3.disk.cache.Keys);
    var e := RecoverEvent(names, Outcome(1, false));
    RunSnoc(Created(id), id, events + [RestartEvent], e);
    SoundOf(s2, w3.disk, id);
    RecoversSuffix(names, w3.disk, id, s2.log, s2.keep, s2.rb, s2.lo);
    var ks := Ordered(s2.keep);
    OrderedSingleton();
    assert ks == [1] && ks[..1] == [1] && |NamesOf(ks)| == 1;
    RemovalStepAt(NamesOf(ks), 0);
    RemovalDisk(s2, w3.disk, id, ks, 1);
    w, s := Advance(w3, id, e), RemovalShape(s2, ks, 1);
    events := events + [RestartEvent] + [e];
  }

  /**
    A run after which the directory is that of a fresh queue, although an append
    reported success: recovery will succeed with nothing pending and no receipt.
   */
  lemma {:induction false} ExposedLoss(id: Identity)
    requires id.Valid()
    ensures exists events :: var w := Run(Created(id), id, events);
              w.disk == CreatedDisk(id) && !w.up && w.accepted == [Wire1(id)] && !w.orderly
  {
    hide Explains, Exposed, IsImage, Run, Settled;
    var w, s, events := AfterRemoval(id);
    var img := map[LOCK := Empty, IDENTITY := IdentityBlob(id)];
    ImageOfNothing(s, w.disk, id, img);
    RunSnoc(Created(id), id, events, PowerEvent(img));
    assert Run(Created(id), id, events + [PowerEvent(img)]).accepted == [Wire1(id)];
  }

  lemma OrderedSingleton()
    ensures Ordered({1}) == [1]
  {
    assert {1} - {1} == {};
    assert Maximum({1}) in {1};
  }

  lemma ImageOfNothing(s: Shape, d: Disk, id: Identity, img: map<string, Blob>)
    requires Explains(s, d, id) && s.log == [Wire1(id)] && s.rb == Some(Receipt1(id)) && s.drb == None && s.keep == {} && s.dlen == 1
    requires TMP !in d.cache && img == map[LOCK := Empty, IDENTITY := IdentityBlob(id)]
    ensures IsImage(d, img) && Exposed(d) && Settled(img) == CreatedDisk(id)
  {
    hide RecordName, Exposed, Chain, Bytes, Covers;
    ExposedIff(s, d, id);
    assert 1 !in s.keep;
    forall n | n in d.durable && n in d.cache ensures n in img {
      assert Known(n, 1);
    }
  }
}
