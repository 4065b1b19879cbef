/**
  The gateway's view of central authority for one immutable binding: ordered
  revisions, terminal revocation, a latch on wall-clock rollback, and a deadline
  on the monotonic clock.
 */
module AuthorizationSpec {
  import opened Basics

  type Key = nat
  type Binding = string

  const SECOND := 1_000_000_000
  const MAX_TIMESTAMP := 253402300799
  const MAX_GRANT_SECONDS := 30 * 24 * 3600
  /** The zero time of the clock, in nanoseconds before the Unix epoch. */
  const ZERO_TIME := -62135596800 * SECOND

  /** One clock sample: wall nanoseconds since the Unix epoch, and the monotonic reading taken with it. */
  datatype Instant = Instant(wall: int, mono: int)

  /** Whole seconds since the epoch, rounded down. */
  function Unix(t: Instant): int {
    t.wall / SECOND
  }

  datatype Statement = Statement(binding: Binding, revision: nat, issuedAt: int, expiresAt: int, revoked: bool)

  predicate ValidStatement(s: Statement) {
    && 1 <= s.revision <= MAX_INT64 && 0 < s.issuedAt <= MAX_TIMESTAMP
    && (if s.revoked then s.expiresAt == 0
        else s.issuedAt < s.expiresAt <= MAX_TIMESTAMP && s.expiresAt - s.issuedAt <= MAX_GRANT_SECONDS)
  }

  /** A signature names its key, so none can be forged. */
  datatype Wire = Signed(statement: Statement, signer: Key) | Garbage

  function Verify(w: Wire, key: Key): Option<Statement> {
    if w.Signed? && w.signer == key && ValidStatement(w.statement) then Some(w.statement) else None
  }

  const NO_STATEMENT := Statement("", 0, 0, 0, false)

  datatype State = State(current: Statement, lastGrant: Statement, lastWall: int, deadline: int, clockUnsafe: bool)

  function Initial(): State {
    State(NO_STATEMENT, NO_STATEMENT, ZERO_TIME, 0, false)
  }

  datatype Status = Unknown | Valid | Expired | Revoked | ClockUnsafe

  function Observe(a: State, now: Instant): State {
    a.(clockUnsafe := a.clockUnsafe || now.wall == ZERO_TIME || now.wall < a.lastWall, lastWall := now.wall)
  }

  /** The monotonic reading at which a grant accepted at `now` runs out. */
  function DeadlineOf(s: Statement, now: Instant): int {
    now.mono + (s.expiresAt * SECOND - now.wall)
  }

  datatype Reception = Refused | Replayed | Accepted

  function Receive(a: State, key: Key, binding: Binding, w: Wire, now: Instant): Reception {
    var s := Verify(w, key);
    if Observe(a, now).clockUnsafe || s.None? || s.value.binding != binding || s.value.issuedAt > Unix(now) then Refused
    else if s.value == a.current then Replayed
    else if a.current.revoked || s.value.revision <= a.current.revision || s.value.issuedAt < a.current.issuedAt ||
            (!s.value.revoked && s.value.expiresAt <= Unix(now)) then Refused
    else Accepted
  }

  function Accept(a: State, key: Key, binding: Binding, w: Wire, now: Instant): State {
    var b := Observe(a, now);
    if Receive(a, key, binding, w, now) != Accepted || !w.Signed? then b
    else if w.statement.revoked then b.(current := w.statement)
    else b.(current := w.statement, lastGrant := w.statement, deadline := DeadlineOf(w.statement, now))
  }

  function StatusOf(a: State, now: Instant): Status {
    if a.current.revoked then Revoked
    else if Observe(a, now).clockUnsafe then ClockUnsafe
    else if a.current.revision == 0 then Unknown
    else if Unix(now) >= a.current.expiresAt || now.mono >= a.deadline then Expired
    else Valid
  }

  // ----- whole runs -----

  datatype Call = AcceptCall(wire: Wire, now: Instant) | StatusCall(now: Instant)

  /** What one call leaves behind: the clock sample it took, and the statement it newly accepted. */
  datatype Entry = Entry(now: Instant, taken: Option<Statement>)

  datatype World = World(auth: State, log: seq<Entry>)

  function Step(w: World, key: Key, binding: Binding, c: Call): World {
    match c
    case AcceptCall(wire, now) =>
      var taken := if Receive(w.auth, key, binding, wire, now) == Accepted && wire.Signed? then Some(wire.statement) else None;
      World(Accept(w.auth, key, binding, wire, now), w.log + [Entry(now, taken)])
    case StatusCall(now) => World(Observe(w.auth, now), w.log + [Entry(now, None)])
  }

  function Run(key: Key, binding: Binding, calls: seq<Call>): World {
    if calls == [] then World(Initial(), [])
    else Step(Run(key, binding, calls[..|calls| - 1]), key, binding, calls[|calls| - 1])
  }

  /** Sample i of the clock is unset, or earlier than the sample before it. */
  predicate RollsBack(log: seq<Entry>, i: int) {
    0 <= i < |log| && (log[i].now.wall == ZERO_TIME || log[i].now.wall < (if i == 0 then ZERO_TIME else log[i - 1].now.wall))
  }

  predicate RolledBack(log: seq<Entry>) {
    exists i :: 0 <= i < |log| && RollsBack(log, i)
  }

  predicate Takes(log: seq<Entry>, i: int) {
    0 <= i < |log| && log[i].taken.Some?
  }

  /** The entry of the statement accepted last. */
  function Latest(log: seq<Entry>): Option<Entry> {
    if log == [] then None
    else if log[|log| - 1].taken.Some? then Some(log[|log| - 1])
    else Latest(log[..|log| - 1])
  }

  /** Accepted statements rise strictly in revision, never go back in issue time, and end with a revocation. */
  predicate InOrder(log: seq<Entry>) {
    forall i, j :: 0 <= i < j < |log| && Takes(log, i) && Takes(log, j) ==>
      Precedes(log[i].taken.value, log[j].taken.value)
  }

  predicate Precedes(s: Statement, t: Statement) {
    s.revision < t.revision && s.issuedAt <= t.issuedAt && !s.revoked
  }

  predicate Clocked(w: World) {
    && w.auth.lastWall == (if w.log == [] then ZERO_TIME else w.log[|w.log| - 1].now.wall)
    && (w.auth.clockUnsafe <==> RolledBack(w.log))
  }

  /** The state is the last statement accepted, and its deadline was fixed when it was accepted. */
  predicate Current(w: World) {
    match Latest(w.log)
    case None => w.auth.current == NO_STATEMENT
    case Some(e) =>
      && e.taken == Some(w.auth.current) && ValidStatement(w.auth.current)
      && (!w.auth.current.revoked ==> w.auth.deadline == DeadlineOf(w.auth.current, e.now) && w.auth.lastGrant == w.auth.current)
  }

  predicate Inv(w: World) {
    && Clocked(w) && Current(w) && InOrder(w.log)
    && forall i :: 0 <= i < |w.log| && Takes(w.log, i) ==>
         w.log[i].taken.value == w.auth.current || Precedes(w.log[i].taken.value, w.auth.current)
  }

  lemma ClockStep(w: World, key: Key, binding: Binding, c: Call)
    requires Clocked(w)
    ensures Clocked(Step(w, key, binding, c))
  {
    hide Receive, ValidStatement, DeadlineOf, Verify;
    var v := Step(w, key, binding, c);
    var n := |w.log|;
    assert v.auth.clockUnsafe <==> w.auth.clockUnsafe || RollsBack(v.log, n);
    assert forall i :: 0 <= i < n ==> (RollsBack(v.log, i) <==> RollsBack(w.log, i));
    if RolledBack(w.log) {
      var i :| 0 <= i < n && RollsBack(w.log, i);
      assert RollsBack(v.log, i);
    }
  }

  lemma CurrentStep(w: World, key: Key, binding: Binding, c: Call)
    requires Inv(w)
    ensures Current(Step(w, key, binding, c))
  {
    hide RollsBack, InOrder, DeadlineOf, Clocked;
    var v := Step(w, key, binding, c);
    assert v.log[..|v.log| - 1] == w.log;
  }

  lemma OrderStep(w: World, key: Key, binding: Binding, c: Call)
    requires Inv(w)
    ensures InOrder(Step(w, key, binding, c).log)
  {
    hide RollsBack, DeadlineOf, Clocked, Latest, ValidStatement;
    var v := Step(w, key, binding, c);
    var n := |w.log|;
    forall i, j | 0 <= i < j < |v.log| && Takes(v.log, i) && Takes(v.log, j)
      ensures Precedes(v.log[i].taken.value, v.log[j].taken.value)
    {
      assert Takes(w.log, i);
      if j < n { assert Takes(w.log, j); }
    }
  }

  lemma StepInv(w: World, key: Key, binding: Binding, c: Call)
    requires Inv(w)
    ensures Inv(Step(w, key, binding, c))
  {
    ClockStep(w, key, binding, c);
    CurrentStep(w, key, binding, c);
    OrderStep(w, key, binding, c);
    hide RollsBack, RolledBack, DeadlineOf, Clocked, Latest, ValidStatement, InOrder;
    var v := Step(w, key, binding, c);
    forall i | 0 <= i < |v.log| && Takes(v.log, i)
      ensures v.log[i].taken.value == v.auth.current || Precedes(v.log[i].taken.value, v.auth.current)
    {
      if i < |w.log| { assert Takes(w.log, i); }
    }
  }

  /** What holds after every run of calls, whatever the statements and the clock. */
  lemma {:induction false} RunInv(key: Key, binding: Binding, calls: seq<Call>)
    ensures Inv(Run(key, binding, calls))
  {
    if calls != [] {
      RunInv(key, binding, calls[..|calls| - 1]);
      StepInv(Run(key, binding, calls[..|calls| - 1]), key, binding, calls[|calls| - 1]);
    }
  }

  /** After a revocation every later status is REVOKED; after a rollback none is VALID. */
  lemma {:induction false} NeverValidAgain(key: Key, binding: Binding, calls: seq<Call>, i: int, now: Instant)
    requires var log := Run(key, binding, calls).log;
             RollsBack(log, i) || (Takes(log, i) && log[i].taken.value.revoked)
    ensures var w := Run(key, binding, calls);
            && StatusOf(w.auth, now) in {Revoked, ClockUnsafe}
            && (Takes(w.log, i) && w.log[i].taken.value.revoked ==> StatusOf(w.auth, now) == Revoked)
  {
    var w := Run(key, binding, calls);
    RunInv(key, binding, calls);
    assert RollsBack(w.log, i) ==> RolledBack(w.log);
  }

  /**
    VALID exactly when no sample ever went back, the last decision accepted is a
    grant, wall time is before its expiry, and the monotonic time since it was
    accepted is below the life it then had left.
   */
  lemma {:induction false} ValidIff(key: Key, binding: Binding, calls: seq<Call>, now: Instant)
    ensures var w := Run(key, binding, calls);
            StatusOf(w.auth, now) == Valid <==>
              && !RolledBack(w.log + [Entry(now, None)])
              && Latest(w.log).Some?
              && var e := Latest(w.log).value;
                 e.taken.Some? && !e.taken.value.revoked && now.wall < e.taken.value.expiresAt * SECOND &&
                 now.mono - e.now.mono < e.taken.value.expiresAt * SECOND - e.now.wall
  {
    var w := Run(key, binding, calls);
    RunInv(key, binding, calls);
    ClockStep(w, key, binding, StatusCall(now));
    UnixBefore(now, w.auth.current.expiresAt);
    hide RollsBack, RolledBack, InOrder, Latest;
  }

  // ----- which statements are taken -----

  /** Signed by the key, valid, for the binding, and issued no later than now. */
  predicate Genuine(wire: Wire, key: Key, binding: Binding, now: Instant) {
    && wire.Signed? && wire.signer == key && 1 <= wire.statement.revision <= MAX_INT64 && 0 < wire.statement.issuedAt <= MAX_TIMESTAMP
    && (wire.statement.revoked ==> wire.statement.expiresAt == 0)
    && (!wire.statement.revoked ==> 0 < wire.statement.expiresAt - wire.statement.issuedAt <= MAX_GRANT_SECONDS && wire.statement.expiresAt <= MAX_TIMESTAMP)
    && wire.statement.binding == binding && wire.statement.issuedAt * SECOND <= now.wall
  }

  /** A decision that may follow the one accepted last: not after a revocation, later in revision, no earlier in issue. */
  predicate Follows(log: seq<Entry>, s: Statement) {
    match Latest(log)
    case None => true
    case Some(e) => e.taken.Some? ==> Precedes(e.taken.value, s)
  }

  predicate IsLatest(log: seq<Entry>, s: Statement) {
    Latest(log).Some? && Latest(log).value.taken == Some(s)
  }

  lemma GenuineIff(wire: Wire, key: Key, binding: Binding, now: Instant)
    ensures Genuine(wire, key, binding, now) <==>
              Verify(wire, key).Some? && wire.statement.binding == binding && wire.statement.issuedAt * SECOND <= now.wall
    ensures Verify(wire, key).Some? ==> wire.Signed? && Verify(wire, key).value == wire.statement
  {
  }

  /**
    After every run, a call takes its statement exactly when no clock sample up to its
    own went back, the statement is genuine, may follow the last one, and is a
    revocation or unexpired.  It reports success exactly for that, and for a genuine
    repetition of the last one.
   */
  lemma {:induction false} TakenIff(key: Key, binding: Binding, calls: seq<Call>, wire: Wire, now: Instant)
    ensures var w := Run(key, binding, calls); var v := Step(w, key, binding, AcceptCall(wire, now));
            var sane := !RolledBack(w.log + [Entry(now, None)]) && Genuine(wire, key, binding, now);
            && |v.log| == |w.log| + 1 && v.log[..|w.log|] == w.log && v.log[|w.log|].now == now
            && (v.log[|w.log|].taken.Some? <==>
                  sane && Follows(w.log, wire.statement) && (wire.statement.revoked || now.wall < wire.statement.expiresAt * SECOND))
            && (v.log[|w.log|].taken.Some? ==> v.log[|w.log|].taken == Some(wire.statement))
            && (Receive(w.auth, key, binding, wire, now) != Refused <==>
                  v.log[|w.log|].taken.Some? || (sane && IsLatest(w.log, wire.statement)))
  {
    var w := Run(key, binding, calls);
    RunInv(key, binding, calls);
    ClockStep(w, key, binding, StatusCall(now));
    if wire.Signed? {
      UnixBefore(now, wire.statement.expiresAt);
      UnixBefore(now, wire.statement.issuedAt);
    }
    GenuineIff(wire, key, binding, now);
    hide Genuine, Verify, ValidStatement, Run, RollsBack, RolledBack, InOrder, Latest, DeadlineOf;
  }

  /** A newer revocation that is genuine and arrives on a sane clock is final: every later status is REVOKED. */
  lemma {:induction false} RevocationTakesEffect(key: Key, binding: Binding, calls: seq<Call>, wire: Wire, now: Instant, later: seq<Call>, at: Instant)
    requires !RolledBack(Run(key, binding, calls).log + [Entry(now, None)]) && Genuine(wire, key, binding, now)
    requires wire.statement.revoked && Follows(Run(key, binding, calls).log, wire.statement)
    ensures StatusOf(Run(key, binding, calls + [AcceptCall(wire, now)] + later).auth, at) == Revoked
  {
    var before := calls + [AcceptCall(wire, now)];
    assert before[..|before| - 1] == calls;
    TakenIff(key, binding, calls, wire, now);
    var n := |Run(key, binding, calls).log|;
    LogStays(key, binding, before, later);
    hide Run, Genuine, RolledBack, Follows;
    NeverValidAgain(key, binding, before + later, n, at);
  }

  lemma {:induction false} LogStays(key: Key, binding: Binding, calls: seq<Call>, later: seq<Call>)
    ensures Run(key, binding, calls).log <= Run(key, binding, calls + later).log
  {
    if later == [] {
      assert calls + later == calls;
    } else {
      hide Receive, Accept;
      assert (calls + later)[..|calls + later| - 1] == calls + later[..|later| - 1];
      LogStays(key, binding, calls, later[..|later| - 1]);
    }
  }

  /** The statuses other than VALID, read off the log: a revocation outranks the clock, the clock outranks expiry. */
  lemma {:induction false} StatusExact(key: Key, binding: Binding, calls: seq<Call>, now: Instant)
    ensures var w := Run(key, binding, calls); var s := StatusOf(w.auth, now);
            var unsafe := RolledBack(w.log + [Entry(now, None)]);
            match Latest(w.log)
            case None => s == if unsafe then ClockUnsafe else Unknown
            case Some(e) =>
              if e.taken.Some? && e.taken.value.revoked then s == Revoked
              else if unsafe then s == ClockUnsafe
              else s in {Valid, Expired}
  {
    var w := Run(key, binding, calls);
    RunInv(key, binding, calls);
    ClockStep(w, key, binding, StatusCall(now));
    hide Run, RollsBack, RolledBack, InOrder, Latest, DeadlineOf;
  }

  lemma UnixBefore(t: Instant, seconds: int)
    ensures Unix(t) < seconds <==> t.wall < seconds * SECOND
  {
  }
}

/** The object that holds that state behind one lock; the clock is sampled inside. */
module GatewayAuthorization {
  import opened Spec = AuthorizationSpec

  class Authorization {
    const key: Key
    const binding: Binding
    var current: Statement
    var lastGrant: Statement
    var lastWall: int
    var deadline: int
    var clockUnsafe: bool

    function Abs(): State
      reads this
    {
      State(current, lastGrant, lastWall, deadline, clockUnsafe)
    }

    constructor (key: Key, binding: Binding)
      ensures this.key == key && this.binding == binding && Abs() == Initial()
    {
      this.key, this.binding := key, binding;
      current, lastGrant, lastWall, deadline, clockUnsafe := NO_STATEMENT, NO_STATEMENT, ZERO_TIME, 0, false;
    }

    method ObserveClock(now: Instant) returns (ok: bool)
      modifies this
      ensures Abs() == Observe(old(Abs()), now) && ok == !clockUnsafe
    {
      if now.wall == ZERO_TIME || now.wall < lastWall { clockUnsafe := true; }
      lastWall := now.wall;
      ok := !clockUnsafe;
    }

    method Accept(w: Wire, now: Instant) returns (ok: bool)
      modifies this
      ensures Abs() == Spec.Accept(old(Abs()), key, binding, w, now)
      ensures ok <==> Receive(old(Abs()), key, binding, w, now) != Refused
    {
      var clockOk := ObserveClock(now);
      if !clockOk { return false; }
      var s := Verify(w, key);
      if s.None? || s.value.binding != binding || s.value.issuedAt > Unix(now) { return false; }
      if s.value == current { return true; }
      if current.revoked || s.value.revision <= current.revision || s.value.issuedAt < current.issuedAt ||
         (!s.value.revoked && s.value.expiresAt <= Unix(now))
      {
        return false;
      }
      current := s.value;
      if !s.value.revoked {
        lastGrant := s.value;
        deadline := DeadlineOf(s.value, now);
      }
      ok := true;
    }

    method Status(now: Instant) returns (s: Status)
      modifies this
      ensures Abs() == Observe(old(Abs()), now) && s == StatusOf(old(Abs()), now)
    {
      var clockOk := ObserveClock(now);
      if current.revoked { return Revoked; }
      if !clockOk { return ClockUnsafe; }
      if current.revision == 0 { return Unknown; }
      if Unix(now) >= current.expiresAt || now.mono >= deadline { return Expired; }
      return Valid;
    }
  }
}
