/** The recorder of OAuth token refreshes: each one is queued before it counts. */
module RefreshSpec {
  import opened Basics
  import opened RcloneSpec
  import opened RcloneRelations

  /** A refresh record in the queue: the secret revision it expects, and the configuration it carries. */
  datatype Refresh = Refresh(expected: int, config: Config)

  /** `failed` is the queue's latch after a write whose outcome is unknown. */
  datatype Recorder = Recorder(previous: Config, revision: int, closed: bool, failed: bool, log: seq<Refresh>)

  function Start(registered: Config, initial: int): Recorder {
    Recorder(registered, initial, false, false, [])
  }

  /** `Uncertain` latches the queue, whether or not the record became visible. */
  datatype Append = Stored | Refused | Uncertain(visible: bool)

  ghost predicate Changes(r: Recorder, next: Config) {
    SameExceptToken(r.previous, next) && Print(r.previous) != Print(next)
  }

  /** One call: `ready` and `valid` are the authority checks before and during the append. */
  ghost function Persist(r: Recorder, next: Option<Config>, ready: bool, valid: bool, a: Append): Recorder {
    if r.closed || !ready || next.None? || !Changes(r, next.value) || !valid || r.failed then r
    else
      var record := Refresh(r.revision, next.value);
      match a
      case Stored => r.(previous := next.value, revision := r.revision + 1, log := r.log + [record])
      case Refused => r
      case Uncertain(visible) => r.(failed := true, log := if visible then r.log + [record] else r.log)
  }

  /** Success: nothing to store, or stored with the authority still valid afterwards. */
  ghost predicate Succeeds(r: Recorder, next: Option<Config>, ready: bool, valid: bool, a: Append, still: bool) {
    && !r.closed && ready && next.Some? && SameExceptToken(r.previous, next.value)
    && (Print(r.previous) == Print(next.value) || (valid && !r.failed && a == Stored && still))
  }

  datatype Event = Refreshed(next: Option<Config>, ready: bool, valid: bool, append: Append) | Close

  ghost function Advance(r: Recorder, e: Event): Recorder {
    match e
    case Refreshed(next, ready, valid, a) => Persist(r, next, ready, valid, a)
    case Close => r.(closed := true)
  }

  ghost function Run(registered: Config, initial: int, es: seq<Event>): Recorder {
    if es == [] then Start(registered, initial) else Advance(Run(registered, initial, es[..|es| - 1]), es[|es| - 1])
  }

  /** Record k expects revision initial + k and differs from what came before it only in the token, and does differ. */
  ghost predicate LinkAt(registered: Config, initial: int, log: seq<Refresh>, k: nat)
    requires k < |log|
  {
    && log[k].expected == initial + k
    && SameExceptToken(registered, log[k].config)
    && Print(if k == 0 then registered else log[k - 1].config) != Print(log[k].config)
  }

  ghost predicate Chained(registered: Config, initial: int, log: seq<Refresh>) {
    forall k :: 0 <= k < |log| ==> LinkAt(registered, initial, log, k)
  }

  /** While nothing is uncertain, the recorder stands exactly at the end of the chain. */
  ghost predicate Inv(registered: Config, initial: int, r: Recorder) {
    && Chained(registered, initial, r.log) && SameExceptToken(registered, r.previous)
    && (!r.failed ==> r.revision == initial + |r.log| && r.previous == if r.log == [] then registered else r.log[|r.log| - 1].config)
  }

  lemma StepInv(registered: Config, initial: int, r: Recorder, e: Event)
    requires Inv(registered, initial, r)
    ensures Inv(registered, initial, Advance(r, e))
  {
    hide Print, SameExceptToken;
    var v := Advance(r, e);
    if e.Refreshed? && e.next.Some? {
      ExceptTokenEquivalence(registered, r.previous, e.next.value);
    }
    forall k | 0 <= k < |v.log| ensures LinkAt(registered, initial, v.log, k) {
      if k < |r.log| { assert LinkAt(registered, initial, r.log, k); }
    }
  }

  /** Over every run of refreshes, refusals, uncertain writes and closing. */
  lemma {:induction false} RefreshesChain(registered: Config, initial: int, es: seq<Event>)
    ensures Inv(registered, initial, Run(registered, initial, es))
  {
    hide Chained, Print;
    if es == [] {
      ExceptTokenEquivalence(registered, registered, registered);
      assert Chained(registered, initial, []) by { EmptyChain(registered, initial); }
    } else {
      RefreshesChain(registered, initial, es[..|es| - 1]);
      StepInv(registered, initial, Run(registered, initial, es[..|es| - 1]), es[|es| - 1]);
    }
  }

  lemma EmptyChain(registered: Config, initial: int)
    ensures Chained(registered, initial, [])
  {
  }

  /** Every queued configuration keeps the registered target, so replaying the chain never relocates it. */
  lemma {:induction false} RefreshesKeepTarget(registered: Config, initial: int, es: seq<Event>, k: nat)
    requires k < |Run(registered, initial, es).log|
    ensures SameTarget(registered, Run(registered, initial, es).log[k].config)
    ensures Run(registered, initial, es).log[k].expected == initial + k
  {
    RefreshesChain(registered, initial, es);
    hide Run;
    assert LinkAt(registered, initial, Run(registered, initial, es).log, k);
    ExceptTokenWithinTarget(registered, Run(registered, initial, es).log[k].config);
  }
}

module RefreshChain {
  import opened RcloneSpec
  import RcloneConfig
  import opened Spec = RefreshSpec

  /** The closure's state: the last accepted configuration, the next revision, and the queue it appends to. */
  class RefreshRecorder {
    const values: Values
    const remote: string
    var previous: Config
    var revision: int
    var closed: bool
    var failed: bool
    var log: seq<Refresh>

    function Abs(): Recorder
      reads this
    {
      Recorder(previous, revision, closed, failed, log)
    }

    constructor (values: Values, remote: string, registered: Config, initial: int)
      ensures this.values == values && this.remote == remote && Abs() == Start(registered, initial)
    {
      this.values, this.remote := values, remote;
      previous, revision, closed, failed, log := registered, initial, false, false, [];
    }

    /** After success the recorder stands at what it was given; a lost authority is reported although the record is stored. */
    method Persist(raw: string, ready: bool, valid: bool, a: Append, still: bool) returns (ok: bool)
      modifies this
      ensures Abs() == Spec.Persist(old(Abs()), Parse(values, raw, remote, ""), ready, valid, a)
      ensures ok <==> Succeeds(old(Abs()), Parse(values, raw, remote, ""), ready, valid, a, still)
      ensures ok ==> Print(previous) == Print(Parse(values, raw, remote, "").value)
    {
      hide Print, SameConfig, Parse;
      if closed || !ready { return false; }
      var next := RcloneConfig.ParseConfig(values, raw, remote, "");
      if next.None? { return false; }
      var same := RcloneConfig.Same(previous, next.value, false);
      if !same { return false; }
      var before := RcloneConfig.Bytes(previous);
      var after := RcloneConfig.Bytes(next.value);
      if before == after { return true; }
      if !valid || failed { return false; }
      match a
      case Stored =>
        log := log + [Refresh(revision, next.value)];
        previous, revision := next.value, revision + 1;
        return still;
      case Refused => return false;
      case Uncertain(visible) =>
        if visible { log := log + [Refresh(revision, next.value)]; }
        failed := true;
        return false;
    }

    method Close()
      modifies this
      ensures Abs() == old(Abs()).(closed := true)
    {
      closed := true;
    }
  }
}
