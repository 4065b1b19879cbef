/**
  The whole authority protocol for one admission: the central decision log, the
  coordinating worker, wires and receipts that may be lost or late, and the
  gateway owner.  Every call into a clock, a database or a socket is a parameter
  of the step that makes it.
 */
module Authority {
  import opened Basics
  import Auth = AuthorizationSpec

  type Statement = Auth.Statement

  const SECOND := Auth.SECOND
  const MAX_WINDOW := Auth.MAX_GRANT_SECONDS

  /** `expires` is in nanoseconds; decisions carry whole seconds. */
  datatype Admission = Admission(binding: Auth.Binding, key: Auth.Key, expires: int)

  datatype Decision = Decision(request: nat, revision: nat, lifetime: int, issuedAt: int, expiresAt: int, revoked: bool)

  datatype Request = Request(id: nat, expected: nat, lifetime: int, revoke: bool)

  predicate ValidRequest(r: Request) {
    r.expected < MAX_INT64 && (if r.revoke then r.lifetime == 0 else 1 <= r.lifetime <= MAX_WINDOW)
  }

  function StatementOf(adm: Admission, d: Decision): Statement {
    Auth.Statement(adm.binding, d.revision, d.issuedAt, if d.revoked then 0 else d.expiresAt, d.revoked)
  }

  function Min(a: int, b: int): int {
    if a < b then a else b
  }

  // ----- the central store: a compare-and-swap on the revision -----

  /** The database's answers inside one transaction; `now` is truncated to the second. */
  datatype Database = Database(now: int, admissible: bool, live: bool)

  function Commit(adm: Admission, log: seq<Decision>, released: bool, r: Request, db: Database): Option<Decision>
    requires log != []
  {
    var previous := log[|log| - 1];
    if !ValidRequest(r) || (!r.revoke && !db.admissible) then None
    else if previous.request == r.id then
      if previous.revision != r.expected + 1 || previous.revoked != r.revoke || previous.lifetime != r.lifetime ||
         (!r.revoke && !db.live)
      then None else Some(previous)
    else if previous.revision != r.expected || previous.revoked || released ||
            (exists k :: 0 <= k < |log| && log[k].request == r.id) || db.now < previous.issuedAt
    then None
    else if r.revoke then Some(Decision(r.id, r.expected + 1, 0, db.now, 0, true))
    else
      var expiresAt := Min(db.now + r.lifetime, adm.expires / SECOND);
      if expiresAt <= db.now || !db.live then None
      else Some(Decision(r.id, r.expected + 1, r.lifetime, db.now, expiresAt, false))
  }

  /** A committed decision joins the log once; a repeated request returns the decision it made before. */
  function Committed(log: seq<Decision>, d: Option<Decision>): seq<Decision> {
    if d.None? || d.value in log then log else log + [d.value]
  }

  /** The control plane's own checks of what the store returned. */
  predicate Plausible(adm: Admission, released: bool, r: Request, d: Decision, clock: int) {
    && d.request == r.id && d.revision == r.expected + 1 && d.revoked == r.revoke && d.lifetime == r.lifetime
    && d.issuedAt * SECOND <= clock
    && (!d.revoked ==> !released && clock < d.expiresAt * SECOND <= adm.expires && d.expiresAt - d.issuedAt <= r.lifetime)
  }

  // ----- the worker -----

  datatype Plan = Failed | Settled(acknowledged: nat) | Resend(revision: nat) | Issue(expected: nat, revoke: bool)

  /** One coordination round, up to its delivery; `withdrawn` is None when a principal could not be read. */
  function Coordinate(adm: Admission, d: Decision, released: bool, acknowledged: nat, clock: int, withdrawn: Option<bool>): Plan {
    if d.issuedAt * SECOND > clock then Failed
    else if released then Settled(d.revision)
    else if d.revoked && acknowledged == d.revision then Settled(acknowledged)
    else if !d.revoked && withdrawn.None? then Failed
    else if !d.revoked && withdrawn.value then Issue(d.revision, true)
    else if acknowledged != d.revision then Resend(d.revision)
    else if d.expiresAt * SECOND <= clock then Failed
    else if d.expiresAt >= adm.expires / SECOND ||
            clock < d.issuedAt * SECOND + (d.expiresAt - d.issuedAt) * SECOND / 2 then Settled(acknowledged)
    else Issue(d.revision, false)
  }

  datatype Phase =
    | Idle
    | Replaying(revision: nat)
    | Deciding(expected: nat, revoke: bool)
    | Waiting(attempt: nat, statement: Statement, next: nat)

  // ----- the gateway owner -----

  datatype Owner = Owner(auth: Auth.State, closed: bool, failed: bool)

  /** The clock readings of one delivery, `now` for the admission's end, and the gateway's other readiness answers. */
  datatype Samples = Samples(status: Auth.Instant, now: int, accept: Auth.Instant, healthy: bool, cancelled: bool)

  predicate Admits(adm: Admission, w: Auth.Wire) {
    var s := Auth.Verify(w, adm.key);
    s.Some? && s.value.binding == adm.binding && (s.value.revoked || s.value.expiresAt * SECOND <= adm.expires)
  }

  predicate Ready(adm: Admission, o: Owner, x: Samples) {
    Auth.StatusOf(o.auth, x.status) == Auth.Valid && x.now < adm.expires && x.healthy
  }

  function AcceptAuthorization(adm: Admission, o: Owner, w: Auth.Wire, x: Samples): Owner {
    if !Admits(adm, w) || o.closed || o.failed then o
    else if w.Signed? && !w.statement.revoked then
      var seen := o.(auth := Auth.Observe(o.auth, x.status));
      if !Ready(adm, o, x) then seen.(failed := true)
      else seen.(auth := Auth.Accept(seen.auth, adm.key, adm.binding, w, x.accept))
    else o.(auth := Auth.Accept(o.auth, adm.key, adm.binding, w, x.accept))
  }

  /** The delivery reached `Accept` and was not refused there. */
  predicate Taken(adm: Admission, o: Owner, w: Auth.Wire, x: Samples) {
    && Admits(adm, w) && !o.closed && !o.failed && w.Signed?
    && (w.statement.revoked || Ready(adm, o, x))
    && var auth := if w.statement.revoked then o.auth else Auth.Observe(o.auth, x.status);
       Auth.Receive(auth, adm.key, adm.binding, w, x.accept) != Auth.Refused
  }

  // ----- the system -----

  /** `accepted` and `wires` only grow: a wire may arrive late, twice, out of order or never. */
  datatype World = World(
    log: seq<Decision>, released: bool,
    acknowledged: nat, phase: Phase, attempts: nat,
    wires: set<Statement>, receipts: set<(nat, Statement)>,
    owner: Owner, accepted: set<Statement>)

  datatype Event =
    | Begin(clock: int, withdrawn: Option<bool>)
    | Decide(id: nat, lifetime: int, db: Database, clock: int, sent: bool)
    | Replay(clock: int, sent: bool)
    | Deliver(connection: nat, wire: Auth.Wire, samples: Samples)
    | Acknowledged
    | Abandon
    | Restart
    | Release
    | Sample(now: Auth.Instant)
    | Stop(closed: bool)

  /** No one but the control plane signs with the central key. */
  predicate Possible(adm: Admission, w: World, e: Event) {
    e.Deliver? && e.wire.Signed? && e.wire.signer == adm.key ==> e.wire.statement in w.wires
  }

  function Start(w: World, plan: Plan): World {
    match plan
    case Failed => w
    case Settled(acknowledged) => w.(acknowledged := acknowledged)
    case Resend(revision) => w.(phase := Replaying(revision))
    case Issue(expected, revoke) => w.(phase := Deciding(expected, revoke))
  }

  function Send(w: World, s: Statement, sent: bool): World {
    if sent then w.(wires := w.wires + {s}, attempts := w.attempts + 1, phase := Waiting(w.attempts, s, s.revision))
    else w.(phase := Idle)
  }

  function Decided(adm: Admission, w: World, r: Request, db: Database, clock: int, sent: bool): World
    requires w.log != []
  {
    var d := Commit(adm, w.log, w.released, r, db);
    var v := w.(log := Committed(w.log, d), phase := Idle);
    if d.None? || !Plausible(adm, w.released, r, d.value, clock) then v
    else Send(v, StatementOf(adm, d.value), sent)
  }

  function Resent(adm: Admission, w: World, revision: nat, clock: int, sent: bool): World
    requires w.log != []
  {
    var d := w.log[|w.log| - 1];
    if d.revision != revision || w.released || clock < d.issuedAt * SECOND ||
       (!d.revoked && (d.expiresAt * SECOND <= clock || d.expiresAt * SECOND > adm.expires))
    then w.(phase := Idle)
    else Send(w, StatementOf(adm, d), sent)
  }

  function Received(adm: Admission, w: World, connection: nat, wire: Auth.Wire, x: Samples): World {
    var v := w.(owner := AcceptAuthorization(adm, w.owner, wire, x));
    if !Taken(adm, w.owner, wire, x) || !wire.Signed? then v
    else
      var u := v.(accepted := w.accepted + {wire.statement});
      if x.cancelled then u else u.(receipts := w.receipts + {(connection, wire.statement)})
  }

  function Advance(adm: Admission, w: World, e: Event): World {
    if w.log == [] then w
    else match e
      case Begin(clock, withdrawn) =>
        if w.phase != Idle then w
        else Start(w, Coordinate(adm, w.log[|w.log| - 1], w.released, w.acknowledged, clock, withdrawn))
      case Decide(id, lifetime, db, clock, sent) =>
        if !w.phase.Deciding? then w
        else Decided(adm, w, Request(id, w.phase.expected, if w.phase.revoke then 0 else lifetime, w.phase.revoke), db, clock, sent)
      case Replay(clock, sent) => if !w.phase.Replaying? then w else Resent(adm, w, w.phase.revision, clock, sent)
      case Deliver(connection, wire, samples) => Received(adm, w, connection, wire, samples)
      case Acknowledged =>
        if w.phase.Waiting? && (w.phase.attempt, w.phase.statement) in w.receipts
        then w.(acknowledged := w.phase.next, phase := Idle) else w
      case Abandon => w.(phase := Idle)
      case Restart => w.(acknowledged := 0, phase := Idle)
      case Release => w.(released := true)
      case Sample(now) => w.(owner := w.owner.(auth := Auth.Observe(w.owner.auth, now)))
      case Stop(closed) => w.(owner := if closed then w.owner.(closed := true) else w.owner.(failed := true))
  }

  /** The first grant is committed, and the gateway was started with it or has nothing yet. */
  predicate Initial(adm: Admission, w: World) {
    && |w.log| == 1 && w.log[0].revision == 1 && !w.log[0].revoked && w.log[0].expiresAt <= adm.expires / SECOND
    && !w.released && w.acknowledged == 0 && w.phase == Idle && w.wires == {} && w.receipts == {}
    && ((w.owner.auth.current == Auth.NO_STATEMENT && w.accepted == {}) ||
        (w.owner.auth.current == StatementOf(adm, w.log[0]) && w.accepted == {w.owner.auth.current}))
  }

  ghost predicate PossibleRun(adm: Admission, w: World, es: seq<Event>) {
    es == [] || (PossibleRun(adm, w, es[..|es| - 1]) && Possible(adm, Run(adm, w, es[..|es| - 1]), es[|es| - 1]))
  }

  function Run(adm: Admission, w: World, es: seq<Event>): World {
    if es == [] then w else Advance(adm, Run(adm, w, es[..|es| - 1]), es[|es| - 1])
  }

  // ----- what every run keeps -----

  /** `s` is exactly the central decision of its revision. */
  predicate Central(adm: Admission, log: seq<Decision>, s: Statement) {
    1 <= s.revision <= |log| && s == StatementOf(adm, log[s.revision - 1])
  }

  predicate LogInv(adm: Admission, log: seq<Decision>) {
    && log != []
    && (forall k :: 0 <= k < |log| ==> log[k].revision == k + 1 && (log[k].revoked ==> k == |log| - 1))
    && (forall k :: 0 <= k < |log| && !log[k].revoked ==> log[k].expiresAt <= adm.expires / SECOND)
    && (forall j, k :: 0 <= j < k < |log| ==> log[j].issuedAt <= log[k].issuedAt)
  }

  predicate GatewayInv(adm: Admission, w: World) {
    && (forall s :: s in w.wires ==> Central(adm, w.log, s))
    && (forall s :: s in w.accepted ==> Central(adm, w.log, s) && s.revision <= w.owner.auth.current.revision)
    && (w.owner.auth.current == Auth.NO_STATEMENT || w.owner.auth.current in w.accepted)
    && (forall r :: r in w.receipts ==> r.1 in w.accepted)
  }

  predicate WorkerInv(adm: Admission, w: World) {
    && (!w.released ==> w.acknowledged <= w.owner.auth.current.revision)
    && (w.phase.Waiting? ==> Central(adm, w.log, w.phase.statement) && w.phase.next == w.phase.statement.revision)
    && (w.phase.Deciding? && !w.phase.revoke && !w.released ==> 1 <= w.phase.expected <= w.owner.auth.current.revision)
  }

  /** Each grant after the first was issued once the gateway held the decision before it. */
  predicate Sequenced(adm: Admission, w: World) {
    forall k :: 0 < k < |w.log| && !w.log[k].revoked ==> StatementOf(adm, w.log[k - 1]) in w.accepted
  }

  predicate Inv(adm: Admission, w: World) {
    LogInv(adm, w.log) && GatewayInv(adm, w) && WorkerInv(adm, w) && Sequenced(adm, w)
  }

  lemma {:induction false} CommitAppends(adm: Admission, log: seq<Decision>, released: bool, r: Request, db: Database)
    requires LogInv(adm, log)
    ensures var d := Commit(adm, log, released, r, db);
            LogInv(adm, Committed(log, d)) && log <= Committed(log, d) &&
            (d.Some? ==> Central(adm, Committed(log, d), StatementOf(adm, d.value))) &&
            (Committed(log, d) != log ==> d.Some? && !released && d.value.revoked == r.revoke && Committed(log, d) == log + [d.value] &&
                                          r.expected == |log| && !log[|log| - 1].revoked)
  {
    var d := Commit(adm, log, released, r, db);
    if d.Some? && d.value.request != log[|log| - 1].request {
      assert forall k :: 0 <= k < |log| ==> log[k] != d.value;
      assert Committed(log, d)[|log|] == d.value;
    }
  }

  /** A gateway that is not behind the central log holds exactly its last decision. */
  lemma Agreement(adm: Admission, w: World)
    requires w.log != [] && GatewayInv(adm, w) && |w.log| <= w.owner.auth.current.revision
    ensures w.owner.auth.current == StatementOf(adm, w.log[|w.log| - 1]) && w.owner.auth.current in w.accepted
  {
    hide StatementOf;
    assert w.owner.auth.current != Auth.NO_STATEMENT;
    assert Central(adm, w.log, w.owner.auth.current);
  }

  lemma GatewayKeeps(adm: Admission, w: World, more: seq<Decision>)
    requires GatewayInv(adm, w) && w.log <= more
    ensures GatewayInv(adm, w.(log := more, phase := Idle))
  {
    hide StatementOf;
    assert forall s :: Central(adm, w.log, s) ==> Central(adm, more, s);
  }

  lemma SendInv(adm: Admission, w: World, s: Statement, sent: bool)
    requires Inv(adm, w) && Central(adm, w.log, s)
    ensures Inv(adm, Send(w, s, sent))
  {
    hide LogInv, StatementOf;
  }

  lemma CommitInv(adm: Admission, w: World, r: Request, db: Database)
    requires Inv(adm, w) && w.phase == Deciding(r.expected, r.revoke)
    ensures Inv(adm, w.(log := Committed(w.log, Commit(adm, w.log, w.released, r, db)), phase := Idle))
  {
    var d := Commit(adm, w.log, w.released, r, db);
    CommitAppends(adm, w.log, w.released, r, db);
    GatewayKeeps(adm, w, Committed(w.log, d));
    hide LogInv, Commit, Committed, StatementOf;
    if Committed(w.log, d) != w.log && !r.revoke { Agreement(adm, w); }
  }

  lemma DecideInv(adm: Admission, w: World, r: Request, db: Database, clock: int, sent: bool)
    requires Inv(adm, w) && w.phase == Deciding(r.expected, r.revoke)
    ensures w.log != [] && Inv(adm, Decided(adm, w, r, db, clock, sent))
  {
    assert w.log != [];
    hide LogInv, GatewayInv, WorkerInv, Sequenced, Commit, Committed, Plausible, StatementOf, Central, Send;
    var d := Commit(adm, w.log, w.released, r, db);
    var v := w.(log := Committed(w.log, d), phase := Idle);
    CommitInv(adm, w, r, db);
    CommitAppends(adm, w.log, w.released, r, db);
    if d.Some? {
      assert Central(adm, v.log, StatementOf(adm, d.value));
      SendInv(adm, v, StatementOf(adm, d.value), sent);
    }
  }

  lemma {:induction false} ReceiveEffect(adm: Admission, o: Owner, w: Auth.Wire, x: Samples)
    ensures var p := AcceptAuthorization(adm, o, w, x);
            && o.auth.current.revision <= p.auth.current.revision
            && (p.auth.current == o.auth.current || (Taken(adm, o, w, x) && w.Signed? && p.auth.current == w.statement))
            && (Taken(adm, o, w, x) ==> w.Signed? && w.signer == adm.key && p.auth.current == w.statement)
  {
    hide Auth.ValidStatement, Auth.DeadlineOf, Auth.StatusOf;
  }

  lemma ReceiveInv(adm: Admission, w: World, connection: nat, wire: Auth.Wire, x: Samples)
    requires Inv(adm, w) && Possible(adm, w, Deliver(connection, wire, x))
    ensures Inv(adm, Received(adm, w, connection, wire, x))
  {
    ReceiveEffect(adm, w.owner, wire, x);
    hide LogInv, AcceptAuthorization, Taken, StatementOf;
  }

  lemma ResendInv(adm: Admission, w: World, revision: nat, clock: int, sent: bool)
    requires Inv(adm, w)
    ensures w.log != [] && Inv(adm, Resent(adm, w, revision, clock, sent))
  {
    var s := StatementOf(adm, w.log[|w.log| - 1]);
    assert Central(adm, w.log, s);
    SendInv(adm, w, s, sent);
    hide LogInv, GatewayInv, StatementOf;
  }

  lemma BeginInv(adm: Admission, w: World, clock: int, withdrawn: Option<bool>)
    requires Inv(adm, w)
    ensures Inv(adm, Advance(adm, w, Begin(clock, withdrawn)))
  {
    assert w.log != [] && w.log[|w.log| - 1].revision == |w.log|;
    hide LogInv, StatementOf, Central;
    var v := Advance(adm, w, Begin(clock, withdrawn));
    assert v == w.(acknowledged := v.acknowledged, phase := v.phase);
    BeginWorker(adm, w, clock, withdrawn);
    hide Advance, WorkerInv;
  }

  lemma BeginWorker(adm: Admission, w: World, clock: int, withdrawn: Option<bool>)
    requires w.log != [] && w.log[|w.log| - 1].revision == |w.log| && WorkerInv(adm, w)
    ensures WorkerInv(adm, Advance(adm, w, Begin(clock, withdrawn)))
  {
    hide StatementOf, Central;
  }

  /** Everything that neither decides nor delivers. */
  lemma QuietInv(adm: Admission, w: World, e: Event)
    requires Inv(adm, w) && !e.Begin? && !e.Decide? && !e.Replay? && !e.Deliver?
    ensures Inv(adm, Advance(adm, w, e))
  {
    hide LogInv, StatementOf, Central;
    assert w.phase.Waiting? ==> w.phase.next == w.phase.statement.revision;
    assert forall r :: r in w.receipts ==> r.1.revision <= w.owner.auth.current.revision;
  }

  lemma {:induction false} StepInv(adm: Admission, w: World, e: Event)
    requires Inv(adm, w) && Possible(adm, w, e)
    ensures Inv(adm, Advance(adm, w, e))
  {
    hide Inv, Decided, Resent, Received;
    match e
    case Decide(id, lifetime, db, clock, sent) =>
      if w.log != [] && w.phase.Deciding? {
        DecideInv(adm, w, Request(id, w.phase.expected, if w.phase.revoke then 0 else lifetime, w.phase.revoke), db, clock, sent);
      }
    case Replay(clock, sent) => if w.log != [] && w.phase.Replaying? { ResendInv(adm, w, w.phase.revision, clock, sent); }
    case Deliver(connection, wire, samples) => ReceiveInv(adm, w, connection, wire, samples);
    case Begin(clock, withdrawn) => BeginInv(adm, w, clock, withdrawn);
    case _ => QuietInv(adm, w, e);
  }

  /** Safety of every run: any interleaving of rounds, late or lost wires and receipts, restarts and stops. */
  lemma {:induction false} RunInv(adm: Admission, w: World, es: seq<Event>)
    requires Initial(adm, w) && PossibleRun(adm, w, es)
    ensures Inv(adm, Run(adm, w, es))
  {
    if es != [] {
      RunInv(adm, w, es[..|es| - 1]);
      StepInv(adm, Run(adm, w, es[..|es| - 1]), es[|es| - 1]);
    }
  }

  /** While unreleased: worker's acknowledged revision, gateway's accepted one, central's last, in that order. */
  lemma {:induction false} RevisionsOrdered(adm: Admission, w: World, es: seq<Event>)
    requires Initial(adm, w) && PossibleRun(adm, w, es)
    ensures var v := Run(adm, w, es);
            && v.owner.auth.current.revision <= |v.log|
            && (!v.released ==> v.acknowledged <= v.owner.auth.current.revision)
            && (v.owner.auth.current != Auth.NO_STATEMENT ==> Central(adm, v.log, v.owner.auth.current))
  {
    RunInv(adm, w, es);
    hide LogInv, StatementOf;
  }

  /** Every accepted grant ends with the admission, however it was delivered. */
  lemma {:induction false} AcceptedWithinAdmission(adm: Admission, w: World, es: seq<Event>, s: Statement)
    requires Initial(adm, w) && PossibleRun(adm, w, es) && s in Run(adm, w, es).accepted && !s.revoked
    ensures s.expiresAt * SECOND <= adm.expires
  {
    hide Run, WorkerInv, Sequenced;
    var v := Run(adm, w, es);
    RunInv(adm, w, es);
    assert Central(adm, v.log, s) && s.expiresAt == v.log[s.revision - 1].expiresAt;
  }

  lemma LogGrows(adm: Admission, u: World, e: Event)
    requires LogInv(adm, u.log)
    ensures var v := Advance(adm, u, e);
            u.log <= v.log &&
            (v.log != u.log ==> && e.Decide? && u.phase.Deciding? && !u.released && !u.log[|u.log| - 1].revoked
                                && u.phase.expected == |u.log| && v.log[|v.log| - 1].revoked == u.phase.revoke)
  {
    if e.Decide? && u.phase.Deciding? {
      CommitAppends(adm, u.log, u.released, Request(e.id, u.phase.expected, if u.phase.revoke then 0 else e.lifetime, u.phase.revoke), e.db);
    }
    hide LogInv, Commit, Committed, Coordinate, AcceptAuthorization, Taken, Plausible, StatementOf;
  }

  /**
    A step of any run that issues a live grant starts from an unreleased admission
    whose last decision is an unrevoked grant that the gateway has accepted and
    still holds.
   */
  lemma {:induction false} IssuedOnlyAfterAcceptance(adm: Admission, w: World, es: seq<Event>, e: Event)
    requires Initial(adm, w) && PossibleRun(adm, w, es)
    requires var u := Run(adm, w, es); var v := Advance(adm, u, e);
             |v.log| > |u.log| && !v.log[|v.log| - 1].revoked
    ensures var u := Run(adm, w, es);
            && u.log != [] && !u.released && !u.log[|u.log| - 1].revoked
            && u.owner.auth.current == StatementOf(adm, u.log[|u.log| - 1]) && u.owner.auth.current in u.accepted
  {
    hide Run, Advance, StatementOf, GatewayInv;
    var u := Run(adm, w, es);
    RunInv(adm, w, es);
    LogGrows(adm, u, e);
    Agreement(adm, u);
  }

  /** Nothing is ever decided after a revocation, and no decision is ever lost or rewritten. */
  lemma {:induction false} RevocationIsLast(adm: Admission, w: World, es: seq<Event>, e: Event)
    requires Initial(adm, w) && PossibleRun(adm, w, es)
    ensures var u := Run(adm, w, es); var v := Advance(adm, u, e);
            u.log <= v.log && (u.log != [] && u.log[|u.log| - 1].revoked ==> v.log == u.log)
  {
    hide Run, Advance, GatewayInv;
    RunInv(adm, w, es);
    LogGrows(adm, Run(adm, w, es), e);
  }

  // ----- what a round does -----

  /** One round that gets as far as the store: it begins, and then decides if it has come to that. */
  function Round(adm: Admission, u: World, clock: int, withdrawn: Option<bool>, e: Event): World {
    Advance(adm, Advance(adm, u, Begin(clock, withdrawn)), e)
  }

  predicate Fresh(log: seq<Decision>, id: nat) {
    forall k :: 0 <= k < |log| ==> log[k].request != id
  }

  /** The worker is idle, the admission unreleased, and the clock not before the last decision. */
  predicate StartsRound(u: World, clock: int) {
    u.log != [] && u.phase == Idle && !u.released && u.log[|u.log| - 1].issuedAt * SECOND <= clock
  }

  /**
    After every run, a round that learns that a principal was withdrawn appends exactly
    one revocation of the next revision, whatever the gateway has acknowledged, and
    sends it if it can.
   */
  lemma {:induction false} WithdrawalRevokes(adm: Admission, w: World, es: seq<Event>, clock: int, id: nat, lifetime: int, db: Database, later: int, sent: bool)
    requires Initial(adm, w) && PossibleRun(adm, w, es)
    requires var u := Run(adm, w, es);
             && StartsRound(u, clock) && !u.log[|u.log| - 1].revoked && |u.log| < MAX_INT64
             && Fresh(u.log, id) && u.log[|u.log| - 1].issuedAt <= db.now
    ensures var u := Run(adm, w, es); var v := Round(adm, u, clock, Some(true), Decide(id, lifetime, db, later, sent));
            var d := Decision(id, |u.log| + 1, 0, db.now, 0, true);
            && v.log == u.log + [d] && v.owner == u.owner && v.acknowledged == u.acknowledged
            && (if sent && db.now * SECOND <= later
                then v.wires == u.wires + {StatementOf(adm, d)} && v.phase == Waiting(u.attempts, StatementOf(adm, d), |u.log| + 1)
                else v.wires == u.wires && v.phase == Idle)
  {
    hide Run;
    RunInv(adm, w, es);
    var u := Run(adm, w, es);
    assert u.log[|u.log| - 1].revision == |u.log|;
    hide Inv;
    var d := Decision(id, |u.log| + 1, 0, db.now, 0, true);
    assert d !in u.log;
  }

  /** The last decision is one to renew: acknowledged, unexpired, at or past half its life, ending before the admission. */
  predicate Renewable(adm: Admission, u: World, clock: int)
    requires u.log != []
  {
    var d := u.log[|u.log| - 1];
    && !d.revoked && u.acknowledged == |u.log| && clock < d.expiresAt * SECOND
    && (d.expiresAt - d.issuedAt) * SECOND <= 2 * (clock - d.issuedAt * SECOND)
    && (d.expiresAt + 1) * SECOND <= adm.expires
  }

  /**
    After every run, a round whose principals are all there, or that could not read
    them: the last decision is resent exactly when the gateway has not acknowledged it,
    a renewal is decided exactly when it is due, and otherwise nothing changes.  If the
    principals are unknown, only a revocation is resent.
   */
  lemma {:induction false} RoundIff(adm: Admission, w: World, es: seq<Event>, clock: int, withdrawn: Option<bool>)
    requires Initial(adm, w) && PossibleRun(adm, w, es) && withdrawn != Some(true)
    requires StartsRound(Run(adm, w, es), clock)
    ensures var u := Run(adm, w, es); var v := Advance(adm, u, Begin(clock, withdrawn));
            var known := withdrawn.Some? || u.log[|u.log| - 1].revoked;
            && v == u.(phase := v.phase)
            && (v.phase == Replaying(|u.log|) <==> known && u.acknowledged != |u.log|)
            && (v.phase == Deciding(|u.log|, false) <==> known && Renewable(adm, u, clock))
            && (v.phase == Idle <==> !known || (u.acknowledged == |u.log| && !Renewable(adm, u, clock)))
  {
    hide Run;
    RunInv(adm, w, es);
    var u := Run(adm, w, es);
    var d := u.log[|u.log| - 1];
    assert d.revision == |u.log|;
    hide Inv;
    HalfLife(d, clock);
    WholeSeconds(adm.expires, d.expiresAt);
  }

  lemma Doubled(n: int, h: int)
    requires n == 2 * h
    ensures n / 2 == h
  {
  }

  lemma HalfLife(d: Decision, clock: int)
    ensures clock < d.issuedAt * SECOND + (d.expiresAt - d.issuedAt) * SECOND / 2 <==>
            2 * (clock - d.issuedAt * SECOND) < (d.expiresAt - d.issuedAt) * SECOND
  {
    var life := (d.expiresAt - d.issuedAt) * SECOND;
    Doubled(life, (d.expiresAt - d.issuedAt) * 500_000_000);
    var half := life / 2;
    assert life == 2 * half;
  }

  lemma WholeSeconds(t: int, s: int)
    ensures s >= t / SECOND <==> t < (s + 1) * SECOND
  {
  }

  /** The store grants a renewal: a fresh request with an allowed lifetime, while the admission lives and has time left. */
  predicate Grantable(adm: Admission, log: seq<Decision>, id: nat, lifetime: int, db: Database)
    requires log != []
  {
    && 1 <= lifetime <= MAX_WINDOW && |log| < MAX_INT64 && db.admissible && db.live && Fresh(log, id)
    && log[|log| - 1].issuedAt <= db.now && (db.now + 1) * SECOND <= adm.expires
  }

  /** After every run, a round and its decision issue a live grant exactly when a renewal is due and can be granted. */
  lemma {:induction false} RenewedIff(
    adm: Admission, w: World, es: seq<Event>, clock: int, id: nat, lifetime: int, db: Database, later: int, sent: bool)
    requires Initial(adm, w) && PossibleRun(adm, w, es) && StartsRound(Run(adm, w, es), clock)
    ensures var u := Run(adm, w, es); var v := Round(adm, u, clock, Some(false), Decide(id, lifetime, db, later, sent));
            var d := Decision(id, |u.log| + 1, lifetime, db.now, Min(db.now + lifetime, adm.expires / SECOND), false);
            v.log == if Renewable(adm, u, clock) && Grantable(adm, u.log, id, lifetime, db) then u.log + [d] else u.log
  {
    hide Run;
    RoundIff(adm, w, es, clock, Some(false));
    RunInv(adm, w, es);
    var u := Run(adm, w, es);
    assert u.log[|u.log| - 1].revision == |u.log| && LogInv(adm, u.log);
    hide Inv, GatewayInv, Renewable;
  }

  /**
    After every run, a resend of the last decision goes out exactly if it still is the
    last one, the admission is unreleased and, for a grant, it has not expired.
   */
  lemma {:induction false} ResentIff(adm: Admission, w: World, es: seq<Event>, clock: int)
    requires Initial(adm, w) && PossibleRun(adm, w, es) && Run(adm, w, es).phase.Replaying?
    ensures Run(adm, w, es).log != []
    ensures var u := Run(adm, w, es); var v := Advance(adm, u, Replay(clock, true)); var d := u.log[|u.log| - 1];
            var goes := && u.phase.revision == |u.log| && !u.released && d.issuedAt * SECOND <= clock
                        && (d.revoked || clock < d.expiresAt * SECOND);
            && v.log == u.log && v.owner == u.owner && v.acknowledged == u.acknowledged
            && (if goes then v.wires == u.wires + {StatementOf(adm, d)} && v.phase == Waiting(u.attempts, StatementOf(adm, d), |u.log|)
                else v.wires == u.wires && v.phase == Idle)
  {
    hide Run;
    RunInv(adm, w, es);
    var u := Run(adm, w, es);
    var d := u.log[|u.log| - 1];
    assert d.revision == |u.log| && (!d.revoked ==> d.expiresAt <= adm.expires / SECOND);
    WholeSeconds(adm.expires, d.expiresAt - 1);
    hide Inv;
  }

  /**
    After every run, a revocation that is on its way and that the gateway does not have
    is taken by an open owner on a sane clock, and acknowledged unless the call was
    cancelled.
   */
  lemma {:induction false} RevocationDelivered(adm: Admission, w: World, es: seq<Event>, connection: nat, s: Statement, x: Samples)
    requires Initial(adm, w) && PossibleRun(adm, w, es)
    requires var u := Run(adm, w, es);
             && s in u.wires && s.revoked && Auth.ValidStatement(s) && u.owner.auth.current.revision < s.revision
             && !u.owner.closed && !u.owner.failed
             && !Auth.Observe(u.owner.auth, x.accept).clockUnsafe && s.issuedAt * SECOND <= x.accept.wall
    ensures var u := Run(adm, w, es); var v := Advance(adm, u, Deliver(connection, Auth.Signed(s, adm.key), x));
            && v.owner.auth.current == s && v.accepted == u.accepted + {s} && !v.owner.failed
            && v.receipts == (if x.cancelled then u.receipts else u.receipts + {(connection, s)})
            && forall now :: Auth.StatusOf(v.owner.auth, now) == Auth.Revoked
  {
    hide Run;
    RunInv(adm, w, es);
    var u := Run(adm, w, es);
    NewerIsOurs(adm, u, s);
    Auth.UnixBefore(x.accept, s.issuedAt);
    hide Inv;
  }

  /**
    After every run, a newer unexpired grant that reaches an open owner on a sane clock is
    taken and acknowledged exactly if the owner is ready: its authority is VALID, the
    admission not over and the gateway healthy.  If it is not, the owner fails for good
    and takes nothing.
   */
  lemma {:induction false} GrantDelivered(adm: Admission, w: World, es: seq<Event>, connection: nat, s: Statement, x: Samples)
    requires Initial(adm, w) && PossibleRun(adm, w, es)
    requires var u := Run(adm, w, es);
             && s in u.wires && !s.revoked && Auth.ValidStatement(s) && u.owner.auth.current.revision < s.revision
             && !u.owner.closed && !u.owner.failed && s.expiresAt * SECOND <= adm.expires
             && !Auth.Observe(Auth.Observe(u.owner.auth, x.status), x.accept).clockUnsafe
             && s.issuedAt * SECOND <= x.accept.wall < s.expiresAt * SECOND
    ensures var u := Run(adm, w, es); var v := Advance(adm, u, Deliver(connection, Auth.Signed(s, adm.key), x));
            if Auth.StatusOf(u.owner.auth, x.status) == Auth.Valid && x.now < adm.expires && x.healthy then
              && v.owner.auth.current == s && v.accepted == u.accepted + {s} && !v.owner.failed
              && v.receipts == (if x.cancelled then u.receipts else u.receipts + {(connection, s)})
            else v.owner.failed && v.owner.auth.current == u.owner.auth.current && v.accepted == u.accepted && v.receipts == u.receipts
  {
    hide Run;
    RunInv(adm, w, es);
    var u := Run(adm, w, es);
    NewerIsOurs(adm, u, s);
    Auth.UnixBefore(x.accept, s.issuedAt);
    Auth.UnixBefore(x.accept, s.expiresAt);
    hide Inv, Auth.StatusOf;
  }

  /**
    After every run, a request whose identifier already made a decision makes no other:
    the same request gets the last decision again, and any other is refused.
   */
  lemma {:induction false} RequestDecidesOnce(adm: Admission, w: World, es: seq<Event>, r: Request, db: Database)
    requires Initial(adm, w) && PossibleRun(adm, w, es)
    requires exists k :: 0 <= k < |Run(adm, w, es).log| && Run(adm, w, es).log[k].request == r.id
    ensures var u := Run(adm, w, es); var c := Commit(adm, u.log, u.released, r, db); var d := u.log[|u.log| - 1];
            && Committed(u.log, c) == u.log
            && c == if ValidRequest(r) && d.request == r.id && d.revision == r.expected + 1 && d.revoked == r.revoke && d.lifetime == r.lifetime &&
                       (r.revoke || (db.admissible && db.live))
                    then Some(d) else None
  {
    hide Run;
    RunInv(adm, w, es);
    hide Inv;
  }

  lemma NewerIsOurs(adm: Admission, u: World, s: Statement)
    requires Inv(adm, u) && s in u.wires && u.owner.auth.current.revision < s.revision && s.issuedAt > 0
    ensures s.binding == adm.binding && !u.owner.auth.current.revoked && u.owner.auth.current.issuedAt <= s.issuedAt
  {
    assert Central(adm, u.log, s);
    if u.owner.auth.current != Auth.NO_STATEMENT { assert Central(adm, u.log, u.owner.auth.current); }
  }

  /**
    Once released, a round reports the central revision without delivering it.  So in
    every run the order holds after it exactly if the gateway already had that revision.
   */
  lemma {:induction false} ReleasedRoundOrder(adm: Admission, w: World, es: seq<Event>, clock: int, withdrawn: Option<bool>)
    requires Initial(adm, w) && PossibleRun(adm, w, es)
    requires var u := Run(adm, w, es); u.released && u.phase == Idle
    ensures var u := Run(adm, w, es); var v := Advance(adm, u, Begin(clock, withdrawn));
            && u.log != [] && v.log == u.log && v.owner == u.owner
            && v.acknowledged == (if clock >= u.log[|u.log| - 1].issuedAt * SECOND then |u.log| else u.acknowledged)
            && (clock >= u.log[|u.log| - 1].issuedAt * SECOND ==>
                  (v.acknowledged <= v.owner.auth.current.revision <==> u.owner.auth.current.revision == |u.log|))
  {
    hide StatementOf, Run;
    var u := Run(adm, w, es);
    RunInv(adm, w, es);
    assert u.owner.auth.current != Auth.NO_STATEMENT ==> Central(adm, u.log, u.owner.auth.current);
  }

  /** A gateway that was released before its first delivery is outrun. */
  lemma {:induction false} ReleasedRoundOutrunsGateway(adm: Admission, w: World, clock: int)
    requires Initial(adm, w) && w.accepted == {} && clock >= w.log[0].issuedAt * SECOND
    ensures var v := Run(adm, w, [Release, Begin(clock, None)]);
            v.acknowledged == 1 && v.owner.auth.current.revision == 0
  {
    var es := [Release, Begin(clock, None)];
    assert es[..1] == [Release] && [Release][..0] == [];
    assert Run(adm, w, [Release]) == w.(released := true);
  }
}
