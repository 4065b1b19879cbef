/**
  The owner of one admitted binding: sessions, the lifetime watchdog, and the
  freeze that only the watchdog performs.  Each function is one critical section or
  one operation on the wait group or the stop channel.
 */
module OwnerSpec {
  datatype Watch = Watching | Joining | Frozen

  /** `stopping` is the closed stop channel, `running` the wait group. */
  datatype Owner = Owner(closed: bool, busy: bool, failed: bool, running: nat, stopping: bool, watch: Watch)

  function Initial(): Owner {
    Owner(false, false, false, 0, false, Watching)
  }

  predicate Enters(o: Owner, ready: bool) {
    !o.closed && !o.failed && !o.busy && ready
  }

  /** The locked section in which a session starts, or the owner fails because it is no longer ready. */
  function Enter(o: Owner, ready: bool): Owner {
    if o.closed || o.failed || o.busy then o
    else if !ready then o.(failed := true)
    else o.(busy := true, running := o.running + 1)
  }

  /** The locked section in which a session gives up its place; another may then enter before it is done. */
  function Release(o: Owner, failed: bool): Owner {
    o.(busy := false, failed := o.failed || failed)
  }

  /** The wait group lets go of the session. */
  function Done(o: Owner): Owner {
    o.(running := if o.running > 0 then o.running - 1 else 0)
  }

  /** Whoever failed or closed the owner then closes the stop channel. */
  function Stop(o: Owner): Owner {
    o.(stopping := o.stopping || o.failed || o.closed)
  }

  /** A watchdog turn: on a stop or on lost readiness it first refuses new sessions. */
  function Turn(o: Owner, ready: bool): Owner {
    if o.watch == Watching && (o.stopping || !ready) then o.(failed := true, watch := Joining) else o
  }

  /** Once the running sessions have reached zero the material is cleared and the queue frozen. */
  function Join(o: Owner): Owner {
    if o.watch == Joining && o.running == 0 then o.(watch := Frozen) else o
  }

  function Close(o: Owner): Owner {
    o.(closed := true)
  }

  // ----- sessions and the queue they write to -----

  type Session = nat

  datatype Entry = Started(session: Session) | Worked(session: Session) | Ended(session: Session) | Marker

  /** Where a session's thread stands: admitted, its start recorded, its end attempted, or its place given up. */
  datatype Stage = Admitted | Open | Closing | Released

  /**
    `log` holds what was appended, `begun` and `ended` the sessions whose start was
    confirmed and whose end was attempted.
   */
  datatype World = World(owner: Owner, stages: map<Session, Stage>, log: seq<Entry>, finished: bool,
                         begun: set<Session>, ended: set<Session>, seen: set<Session>)

  /** `stored` says whether the append took effect, `confirmed` whether the caller was told so. */
  datatype Event =
    | EnterSession(session: Session, ready: bool)
    | RecordStart(session: Session, stored: bool, confirmed: bool)
    | RecordWork(session: Session, stored: bool)
    | RecordEnd(session: Session, stored: bool)
    | ReleaseSession(session: Session, failed: bool)
    | DoneSession(session: Session)
    | StopWatch
    | WatchTurn(ready: bool)
    | WatchJoin
    | CloseOwner
    | Finish(stored: bool)

  /** The queue refuses every append but the marker once it is frozen. */
  function Store(w: World, e: Entry, stored: bool): World {
    if stored && w.owner.watch != Frozen then w.(log := w.log + [e]) else w
  }

  /** Sessions are identified by fresh operation identifiers. */
  predicate Possible(w: World, e: Event) {
    e.EnterSession? ==> e.session !in w.seen
  }

  function Advance(w: World, e: Event): World {
    match e
    case EnterSession(s, ready) =>
      var v := w.(owner := Enter(w.owner, ready));
      if Enters(w.owner, ready) then v.(stages := w.stages[s := Admitted], seen := w.seen + {s}) else v
    case RecordStart(s, stored, confirmed) =>
      if s !in w.stages || w.stages[s] != Admitted then w
      else
        var v := Store(w, Started(s), stored);
        if stored && confirmed && w.owner.watch != Frozen
        then v.(stages := w.stages[s := Open], begun := w.begun + {s}) else v.(stages := w.stages[s := Closing])
    case RecordWork(s, stored) =>
      if s !in w.stages || w.stages[s] != Open then w else Store(w, Worked(s), stored)
    case RecordEnd(s, stored) =>
      if s !in w.stages || w.stages[s] != Open then w
      else Store(w, Ended(s), stored).(stages := w.stages[s := Closing], ended := w.ended + {s})
    case ReleaseSession(s, failed) =>
      if s !in w.stages || w.stages[s] in {Open, Released} then w
      else w.(owner := Release(w.owner, failed), stages := w.stages[s := Released])
    case DoneSession(s) =>
      if s !in w.stages || w.stages[s] != Released then w
      else w.(owner := Done(w.owner), stages := w.stages - {s})
    case StopWatch => w.(owner := Stop(w.owner))
    case WatchTurn(ready) => w.(owner := Turn(w.owner, ready))
    case WatchJoin => w.(owner := Join(w.owner))
    case CloseOwner => w.(owner := Close(w.owner))
    case Finish(stored) =>
      if w.owner.watch != Frozen || w.finished then w
      else w.(finished := true, log := if stored then w.log + [Marker] else w.log)
  }

  function Start(): World {
    World(Initial(), map[], [], false, {}, {}, {})
  }

  function Run(es: seq<Event>): World {
    if es == [] then Start() else Advance(Run(es[..|es| - 1]), es[|es| - 1])
  }

  ghost predicate PossibleRun(es: seq<Event>) {
    es == [] || (PossibleRun(es[..|es| - 1]) && Possible(Run(es[..|es| - 1]), es[|es| - 1]))
  }

  // ----- what every interleaving keeps -----

  /** The sessions that hold the owner's place: they may still write to the queue. */
  function Holding(stages: map<Session, Stage>): set<Session> {
    set s | s in stages && stages[s] != Released
  }

  /** The wait group counts the sessions that are not done; at most one of them holds the owner's place. */
  predicate Counted(w: World) {
    && w.owner.running == |w.stages|
    && |Holding(w.stages)| == (if w.owner.busy then 1 else 0)
    && (w.owner.watch != Watching ==> w.owner.failed)
    && (w.owner.watch == Frozen ==> w.stages == map[])
    && (forall s :: s in w.stages ==> s in w.seen)
  }

  /** A session is open exactly between its confirmed start and its attempted end. */
  predicate Audited(w: World) {
    && (forall s :: s in w.begun ==> s in w.seen && (s in w.ended || (s in w.stages && w.stages[s] == Open)))
    && (forall s :: s in w.stages && w.stages[s] == Open ==> s in w.begun && s !in w.ended)
    && (forall s :: s in w.ended ==> s in w.begun)
    && (forall s :: s in w.stages && w.stages[s] == Admitted ==> s !in w.begun)
  }

  /** Work entries lie inside an open session or before its end; nothing follows a session's end. */
  predicate Logged(w: World) {
    && (forall i :: 0 <= i < |w.log| && w.log[i].Ended? ==> w.log[i].session in w.ended)
    && (forall i, j :: 0 <= i < j < |w.log| && w.log[i].Ended? ==> !OfSession(w.log[j], w.log[i].session))
    && (forall i :: 0 <= i < |w.log| && w.log[i] == Marker ==> i == |w.log| - 1 && w.finished)
    && (w.finished ==> w.owner.watch == Frozen)
  }

  predicate OfSession(e: Entry, s: Session) {
    e != Marker && e.session == s
  }

  predicate Inv(w: World) {
    Counted(w) && Audited(w) && Logged(w)
  }

  lemma CountedStep(w: World, e: Event)
    requires Inv(w) && Possible(w, e)
    ensures Counted(Advance(w, e))
  {
    hide Logged, Audited;
    match e
    case EnterSession(s, ready) => EnterCounted(w, s, ready);
    case ReleaseSession(s, failed) => ReleaseCounted(w, s, failed);
    case DoneSession(s) => DoneCounted(w, s);
    case RecordStart(s, stored, confirmed) => StageCounted(w, e, s);
    case RecordEnd(s, stored) => StageCounted(w, e, s);
    case _ => hide Enter, Release, Done;
  }

  lemma EnterCounted(w: World, s: Session, ready: bool)
    requires Counted(w) && s !in w.seen
    ensures Counted(Advance(w, EnterSession(s, ready)))
  {
    var v := Advance(w, EnterSession(s, ready));
    if Enters(w.owner, ready) {
      assert s !in w.stages && v.stages.Keys == w.stages.Keys + {s};
      Sizes(w.stages, v.stages);
      assert Holding(v.stages) == Holding(w.stages) + {s};
    }
    hide Holding;
  }

  lemma ReleaseCounted(w: World, s: Session, failed: bool)
    requires Counted(w)
    ensures Counted(Advance(w, ReleaseSession(s, failed)))
  {
    var v := Advance(w, ReleaseSession(s, failed));
    assert v.stages.Keys == w.stages.Keys;
    Sizes(w.stages, v.stages);
    if v != w && s in w.stages && w.stages[s] !in {Open, Released} {
      assert Holding(v.stages) == Holding(w.stages) - {s} && s in Holding(w.stages);
    }
    hide Holding;
  }

  lemma DoneCounted(w: World, s: Session)
    requires Counted(w)
    ensures Counted(Advance(w, DoneSession(s)))
  {
    if s in w.stages && w.stages[s] == Released {
      Shrinks(w.stages, s);
      assert Holding(w.stages - {s}) == Holding(w.stages);
    }
    hide Holding;
  }

  lemma StageCounted(w: World, e: Event, s: Session)
    requires Counted(w) && (e.RecordStart? || e.RecordEnd?) && e.session == s
    ensures Counted(Advance(w, e))
  {
    var v := Advance(w, e);
    assert v.stages.Keys == w.stages.Keys;
    Sizes(w.stages, v.stages);
    assert Holding(v.stages) == Holding(w.stages);
    hide Holding;
  }

  lemma Sizes(a: map<Session, Stage>, b: map<Session, Stage>)
    ensures |a| == |a.Keys| && |b| == |b.Keys|
  {
    assert a.Keys == set k | k in a;
  }

  lemma Shrinks(a: map<Session, Stage>, s: Session)
    requires s in a
    ensures |a - {s}| == |a| - 1
  {
    assert (a - {s}).Keys == a.Keys - {s};
    Sizes(a, a - {s});
  }

  lemma LoggedStep(w: World, e: Event)
    requires Inv(w) && Possible(w, e)
    ensures Logged(Advance(w, e))
  {
    var v := Advance(w, e);
    assert v.log == w.log || (|v.log| == |w.log| + 1 && w.log == v.log[..|w.log|]);
  }

  lemma AuditedStep(w: World, e: Event)
    requires Inv(w) && Possible(w, e)
    ensures Audited(Advance(w, e))
  {
    hide Logged;
  }

  lemma StepInv(w: World, e: Event)
    requires Inv(w) && Possible(w, e)
    ensures Inv(Advance(w, e))
  {
    hide Advance, Counted, Audited, Logged;
    CountedStep(w, e);
    LoggedStep(w, e);
    AuditedStep(w, e);
  }

  lemma {:induction false} RunInv(es: seq<Event>)
    requires PossibleRun(es)
    ensures Inv(Run(es))
  {
    if es != [] {
      RunInv(es[..|es| - 1]);
      StepInv(Run(es[..|es| - 1]), es[|es| - 1]);
    }
  }

  /**
    The terminal marker: at most one, the last entry, after every session-end event;
    when it is there no session runs and every session whose start was recorded has
    had its end recorded or attempted.
   */
  lemma {:induction false} MarkerAfterEveryEnd(es: seq<Event>, i: nat)
    requires PossibleRun(es) && i < |Run(es).log| && Run(es).log[i] == Marker
    ensures var w := Run(es);
            && i == |w.log| - 1 && w.stages == map[] && w.begun <= w.ended
            && (forall j :: 0 <= j < |w.log| && j != i ==> w.log[j] != Marker && j < i)
  {
    RunInv(es);
  }

  /**
    No append of a live session is ever refused because the queue was frozen under it,
    nor while the wait group still counts it; and only one session at a time can append.
   */
  lemma {:induction false} NeverFrozenUnderSession(es: seq<Event>, s: Session)
    requires PossibleRun(es) && s in Run(es).stages
    ensures Run(es).owner.watch != Frozen && !Run(es).finished
    ensures Run(es).stages[s] != Released ==> Holding(Run(es).stages) == {s}
  {
    RunInv(es);
    hide Run, Logged, Audited;
    var held := Holding(Run(es).stages);
    if s in held { assert |held - {s}| == 0; }
  }

  /**
    After every run, the watchdog fails the owner exactly if it was stopped or is no
    longer ready, and then freezes the queue exactly once no session is left.
   */
  lemma {:induction false} FreezesIff(es: seq<Event>, ready: bool)
    requires PossibleRun(es)
    ensures var w := Run(es); var turned := Advance(w, WatchTurn(ready)); var joined := Advance(w, WatchJoin);
            && (w.owner.watch == Watching ==>
                  if w.owner.stopping || !ready then turned.owner.watch == Joining && turned.owner.failed else turned == w)
            && (w.owner.watch != Watching ==> turned == w)
            && (joined.owner.watch == Frozen <==> w.owner.watch == Frozen || (w.owner.watch == Joining && w.stages == map[]))
            && joined == w.(owner := w.owner.(watch := joined.owner.watch))
  {
    RunInv(es);
    hide Run, Logged, Audited;
    assert |Run(es).stages| == 0 <==> Run(es).stages == map[];
  }

  /**
    After every run, a session leaves in two steps: it gives up its place once it has
    no open start, and the wait group lets go of it after that.
   */
  lemma {:induction false} LeavesIff(es: seq<Event>, s: Session, failed: bool)
    requires PossibleRun(es) && s in Run(es).stages
    ensures var w := Run(es); var v := Advance(w, ReleaseSession(s, failed)); var d := Advance(w, DoneSession(s));
            && s in v.stages && (v != w ==> v.stages[s] == Released && !v.owner.busy && v.owner.failed == (w.owner.failed || failed))
            && (v.stages[s] == Released <==> w.stages[s] != Open)
            && (s !in d.stages <==> w.stages[s] == Released)
            && (s !in d.stages ==> d.owner.running == w.owner.running - 1)
  {
    RunInv(es);
    hide Run, Logged, Audited;
    var w := Run(es);
    assert w.stages.Keys != {} by { assert s in w.stages.Keys; }
    assert |w.stages| == |w.stages.Keys|;
  }

  /** A failed or closed owner never runs another session; what it froze stays frozen. */
  lemma {:induction false} StoppedIsFinal(w: World, e: Event)
    requires Inv(w)
    ensures w.owner.failed || w.owner.closed ==> Advance(w, e).stages.Keys <= w.stages.Keys
    ensures (w.owner.failed ==> Advance(w, e).owner.failed) && (w.owner.closed ==> Advance(w, e).owner.closed)
    ensures w.owner.watch == Frozen ==> Advance(w, e).owner.watch == Frozen
  {
  }
}

module OwnerLifecycle {
  import opened Spec = OwnerSpec
  import Auth = AuthorizationSpec
  import opened GatewayAuthorization
  import Authority

  /** The fields behind the owner's mutex; every method is one locked section. */
  class AuthorizedBackup {
    const authorization: Authorization
    const expires: int
    var closed: bool
    var busy: bool
    var failed: bool
    var running: nat
    var stopping: bool
    var watch: Watch

    function Abs(): Owner
      reads this
    {
      Owner(closed, busy, failed, running, stopping, watch)
    }

    constructor (authorization: Authorization, expires: int)
      ensures this.authorization == authorization && this.expires == expires && Abs() == Initial()
    {
      this.authorization, this.expires := authorization, expires;
      closed, busy, failed, running, stopping, watch := false, false, false, 0, false, Watching;
    }

    method Enter(ready: bool) returns (entered: bool)
      modifies this
      ensures Abs() == Spec.Enter(old(Abs()), ready) && entered == Enters(old(Abs()), ready)
    {
      if closed || failed || busy { return false; }
      if !ready {
        failed := true;
        return false;
      }
      busy, running := true, running + 1;
      return true;
    }

    method Release(unsuccessful: bool)
      modifies this
      ensures Abs() == Spec.Release(old(Abs()), unsuccessful)
    {
      busy := false;
      failed := failed || unsuccessful;
    }

    method Done()
      modifies this
      ensures Abs() == Spec.Done(old(Abs()))
    {
      if running > 0 { running := running - 1; }
    }

    method Stop()
      modifies this
      ensures Abs() == Spec.Stop(old(Abs()))
    {
      if failed || closed { stopping := true; }
    }

    method WatchTurn(ready: bool)
      modifies this
      ensures Abs() == Turn(old(Abs()), ready)
    {
      if watch == Watching && (stopping || !ready) { failed, watch := true, Joining; }
    }

    method WatchJoin() returns (frozen: bool)
      modifies this
      ensures Abs() == Join(old(Abs())) && frozen == (watch == Frozen)
    {
      if watch == Joining && running == 0 { watch := Frozen; }
      frozen := watch == Frozen;
    }

    method Close()
      modifies this
      ensures Abs() == Spec.Close(old(Abs()))
    {
      closed := true;
    }

    /** The admission and state this owner shows to the authority protocol. */
    function Admission(): Authority.Admission {
      Authority.Admission(authorization.binding, authorization.key, expires)
    }

    function Authorized(): Authority.Owner
      reads this, authorization
    {
      Authority.Owner(authorization.Abs(), closed, failed)
    }

    method Ready(x: Authority.Samples) returns (ready: bool)
      modifies authorization
      ensures authorization.Abs() == Auth.Observe(old(authorization.Abs()), x.status)
      ensures ready == Authority.Ready(Admission(), old(Authorized()), x)
    {
      var s := authorization.Status(x.status);
      ready := s == Auth.Valid && x.now < expires && x.healthy;
    }

    /** Success is reported exactly when the wire was taken and the call was not cancelled meanwhile. */
    method AcceptAuthorization(w: Auth.Wire, x: Authority.Samples) returns (ok: bool)
      modifies this, authorization
      ensures Authorized() == Authority.AcceptAuthorization(Admission(), old(Authorized()), w, x)
      ensures ok <==> Authority.Taken(Admission(), old(Authorized()), w, x) && !x.cancelled
      ensures (busy, running, watch) == old((busy, running, watch)) && (old(stopping) ==> stopping)
      ensures failed && !old(failed) ==> stopping
    {
      var s := Auth.Verify(w, authorization.key);
      if s.None? || s.value.binding != authorization.binding ||
         (!s.value.revoked && s.value.expiresAt * Auth.SECOND > expires)
      {
        return false;
      }
      if closed || failed { return false; }
      if !s.value.revoked {
        var ready := Ready(x);
        if !ready {
          failed, stopping := true, true;
          return false;
        }
      }
      var accepted := authorization.Accept(w, x.accept);
      ok := accepted && !x.cancelled;
    }
  }
}
