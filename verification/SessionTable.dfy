/**
  The gateway's table of session records: it owns live routes and deduplicates
  requests, and it outlives a lost response but not a gateway restart.
 */
module SessionSpec {
  import opened Basics

  type Id = nat
  type Time = int

  const DAY := 24 * 3600 * 1_000_000_000
  const READ_WINDOW := 5 * 60 * 1_000_000_000
  const MAX_SESSIONS := 4096

  datatype Phase = Starting | Active | Closed | Failed

  predicate Terminal(p: Phase) {
    p == Closed || p == Failed
  }

  /** `endpoint` names the session whose route is open. */
  datatype Session = Session(agent: Id, repository: Id, reader: Option<Id>, requested: Time, id: Id, expires: Time,
                             phase: Phase, endpoint: Option<Id>, finishing: bool)

  /** The repository owner that a request was routed to. */
  datatype Owner = Owner(agent: Id, repository: Id, expires: Time)

  datatype Table = Table(sessions: map<Id, Session>, probing: set<Id>, stopping: bool)

  predicate Live(t: Table, op: Id) {
    op in t.sessions && !Terminal(t.sessions[op].phase)
  }

  /** `id` is None when no identifier could be drawn; `until` is the reader certificate's end. */
  datatype Post = Post(owner: Owner, op: Id, reader: Option<Id>, deadline: Time, now: Time, id: Option<Id>, until: Time)

  /** `Busy` and a hinted `Unavailable` tell the client that no session was consumed. */
  datatype Response =
    | Conflict
    | Expired
    | Busy
    | Unavailable(hint: bool)
    | Found(session: Session)
    | Opened(session: Session)

  predicate SameRequest(s: Session, p: Post) {
    s.agent == p.owner.agent && s.repository == p.owner.repository && s.requested == p.deadline && s.reader == p.reader
  }

  predicate Occupied(t: Table, o: Owner) {
    exists op :: op in t.sessions && !Terminal(t.sessions[op].phase) &&
                 (t.sessions[op].repository == o.repository || t.sessions[op].agent == o.agent)
  }

  function Min(a: Time, b: Time): Time {
    if b < a then b else a
  }

  function Lifetime(p: Post): Time {
    var d := Min(p.now + (if p.reader.Some? then READ_WINDOW else DAY), p.deadline);
    Min(if p.reader.Some? then Min(d, p.until) else d, p.owner.expires)
  }

  function NewSession(p: Post, id: Id): Session {
    Session(p.owner.agent, p.owner.repository, p.reader, p.deadline, id, Lifetime(p), Starting, None, false)
  }

  function Answer(t: Table, p: Post): Response {
    if p.op in t.sessions then if SameRequest(t.sessions[p.op], p) then Found(t.sessions[p.op]) else Conflict
    else if p.deadline <= p.now then Expired
    else if p.owner.repository in t.probing then Busy
    else if t.stopping || |t.sessions| >= MAX_SESSIONS then Response.Unavailable(p.reader.None?)
    else if Occupied(t, p.owner) then Busy
    else if p.id.None? then Response.Unavailable(p.reader.None?)
    else Opened(NewSession(p, p.id.value))
  }

  function Open(t: Table, p: Post): Table {
    var r := Answer(t, p);
    if r.Opened? then t.(sessions := t.sessions[p.op := r.session]) else t
  }

  // ----- a session's worker -----

  function Activate(t: Table, op: Id): Table {
    if op in t.sessions && t.sessions[op].phase == Starting
    then t.(sessions := t.sessions[op := t.sessions[op].(phase := Active, endpoint := Some(t.sessions[op].id))]) else t
  }

  /** The worker ends once, after all its work has joined. */
  function End(t: Table, op: Id, failed: bool): Table {
    if op in t.sessions && !Terminal(t.sessions[op].phase)
    then t.(sessions := t.sessions[op := t.sessions[op].(phase := if failed then Failed else Closed, endpoint := None)]) else t
  }

  function RequestFinish(t: Table, op: Id): Table {
    if op in t.sessions then t.(sessions := t.sessions[op := t.sessions[op].(finishing := true)]) else t
  }

  // ----- the readiness sweep -----

  predicate RepositoryActive(t: Table, repository: Id) {
    exists op :: op in t.sessions && !Terminal(t.sessions[op].phase) && t.sessions[op].repository == repository
  }

  function BeginProbe(t: Table, repository: Id): Table {
    if t.stopping then t
    else if RepositoryActive(t, repository) then t.(probing := t.probing - {repository})
    else t.(probing := t.probing + {repository})
  }

  function EndProbe(t: Table, repository: Id): Table {
    t.(probing := t.probing - {repository})
  }

  // ----- every interleaving -----

  datatype Event =
    | PostRequest(post: Post)
    | Activated(op: Id)
    | Ended(op: Id, failed: bool)
    | DeleteRequest(op: Id)
    | ProbeBegins(repository: Id)
    | ProbeEnds(repository: Id)
    | Stop

  function Advance(t: Table, e: Event): Table {
    match e
    case PostRequest(p) => Open(t, p)
    case Activated(op) => Activate(t, op)
    case Ended(op, failed) => End(t, op, failed)
    case DeleteRequest(op) => RequestFinish(t, op)
    case ProbeBegins(r) => BeginProbe(t, r)
    case ProbeEnds(r) => EndProbe(t, r)
    case Stop => t.(stopping := true)
  }

  function Run(es: seq<Event>): Table {
    if es == [] then Table(map[], {}, false) else Advance(Run(es[..|es| - 1]), es[|es| - 1])
  }

  predicate Apart(s: Session, r: Session) {
    s.repository != r.repository && s.agent != r.agent
  }

  /** At most one live session for each repository and each agent, and none on a repository being probed. */
  predicate Exclusive(t: Table) {
    && (forall a, b :: a in t.sessions && b in t.sessions && a != b && Live(t, a) && Live(t, b) ==>
          Apart(t.sessions[a], t.sessions[b]))
    && (forall a :: a in t.sessions && Live(t, a) ==> t.sessions[a].repository !in t.probing)
  }

  /** A route is open exactly while its session is active; nothing outlives the deadline that was asked for. */
  predicate Sane(s: Session) {
    (s.endpoint == if s.phase == Active then Some(s.id) else None) && s.expires <= s.requested
  }

  predicate Inv(t: Table) {
    Exclusive(t) && |t.sessions| <= MAX_SESSIONS && forall op :: op in t.sessions ==> Sane(t.sessions[op])
  }

  predicate SameIdentity(s: Session, r: Session) {
    s.agent == r.agent && s.repository == r.repository && s.reader == r.reader && s.requested == r.requested &&
    s.id == r.id && s.expires == r.expires
  }

  predicate Forward(a: Phase, b: Phase) {
    a == b || (a == Starting && b == Active) || (!Terminal(a) && Terminal(b))
  }

  lemma PutExclusive(t: Table, op: Id, s: Session)
    requires Exclusive(t)
    requires !Terminal(s.phase) ==> s.repository !in t.probing
    requires !Terminal(s.phase) ==> forall a :: a in t.sessions && a != op && Live(t, a) ==> Apart(t.sessions[a], s)
    ensures Exclusive(t.(sessions := t.sessions[op := s]))
  {
    var u := t.(sessions := t.sessions[op := s]);
    assert forall a :: a in u.sessions && a != op ==> a in t.sessions && u.sessions[a] == t.sessions[a] && (Live(u, a) <==> Live(t, a));
    forall a, b | a in u.sessions && b in u.sessions && a != b && Live(u, a) && Live(u, b)
      ensures Apart(u.sessions[a], u.sessions[b])
    {
      if a != op && b != op { assert Live(t, a) && Live(t, b); }
    }
  }

  lemma PutSize(m: map<Id, Session>, op: Id, s: Session)
    ensures |m[op := s]| == if op in m then |m| else |m| + 1
  {
    assert m[op := s].Keys == m.Keys + {op};
    assert |m| == |m.Keys| && |m[op := s]| == |m[op := s].Keys|;
  }

  lemma OpenInv(t: Table, p: Post)
    requires Inv(t)
    ensures Inv(Open(t, p))
  {
    if Answer(t, p).Opened? {
      hide Exclusive;
      PutSize(t.sessions, p.op, Answer(t, p).session);
      PutExclusive(t, p.op, Answer(t, p).session);
    }
  }

  /** A worker's step changes one session only, and only forward. */
  lemma UpdateInv(t: Table, op: Id, s: Session)
    requires Inv(t) && op in t.sessions && SameIdentity(t.sessions[op], s) && Forward(t.sessions[op].phase, s.phase) && Sane(s)
    ensures Inv(t.(sessions := t.sessions[op := s]))
  {
    assert !Terminal(s.phase) ==> Live(t, op);
    PutSize(t.sessions, op, s);
    PutExclusive(t, op, s);
    hide Exclusive;
  }

  lemma ProbeInv(t: Table, r: Id)
    requires Inv(t)
    ensures Inv(BeginProbe(t, r)) && Inv(EndProbe(t, r))
  {
    var u := BeginProbe(t, r);
    assert forall a :: Live(u, a) <==> Live(t, a);
    assert forall a :: Live(EndProbe(t, r), a) <==> Live(t, a);
  }

  lemma StepInv(t: Table, e: Event)
    requires Inv(t)
    ensures Inv(Advance(t, e))
  {
    hide Exclusive, Answer;
    match e
    case PostRequest(p) => OpenInv(t, p);
    case Activated(op) =>
      if op in t.sessions && t.sessions[op].phase == Starting {
        UpdateInv(t, op, t.sessions[op].(phase := Active, endpoint := Some(t.sessions[op].id)));
      }
    case Ended(op, failed) =>
      if op in t.sessions && !Terminal(t.sessions[op].phase) {
        UpdateInv(t, op, t.sessions[op].(phase := if failed then Failed else Closed, endpoint := None));
      }
    case DeleteRequest(op) => if op in t.sessions { UpdateInv(t, op, t.sessions[op].(finishing := true)); }
    case ProbeBegins(r) => ProbeInv(t, r);
    case ProbeEnds(r) => ProbeInv(t, r);
    case Stop => StopInv(t);
  }

  lemma StopInv(t: Table)
    requires Inv(t)
    ensures Inv(t.(stopping := true))
  {
    assert forall a :: Live(t.(stopping := true), a) <==> Live(t, a);
  }

  lemma {:induction false} RunInv(es: seq<Event>)
    ensures Inv(Run(es))
  {
    if es != [] {
      RunInv(es[..|es| - 1]);
      StepInv(Run(es[..|es| - 1]), es[|es| - 1]);
    }
  }

  lemma StepKeeps(t: Table, e: Event, op: Id)
    requires op in t.sessions
    ensures op in Advance(t, e).sessions && SameIdentity(t.sessions[op], Advance(t, e).sessions[op])
    ensures Forward(t.sessions[op].phase, Advance(t, e).sessions[op].phase)
  {
  }

  /** An operation keeps its first session for ever, its phase only moves forward, and a terminal phase is final. */
  lemma {:induction false} FirstSessionKept(es: seq<Event>, n: nat, op: Id)
    requires n <= |es| && op in Run(es[..n]).sessions
    ensures op in Run(es).sessions
    ensures SameIdentity(Run(es[..n]).sessions[op], Run(es).sessions[op])
    ensures Terminal(Run(es[..n]).sessions[op].phase) ==> Run(es).sessions[op].phase == Run(es[..n]).sessions[op].phase
    decreases |es|
  {
    if n == |es| {
      assert es[..n] == es;
    } else {
      var before := es[..|es| - 1];
      assert before[..n] == es[..n];
      hide Advance;
      FirstSessionKept(before, n, op);
      StepKeeps(Run(before), es[|es| - 1], op);
    }
  }

  // ----- what a client is told -----

  predicate SameCall(p: Post, q: Post) {
    p.op == q.op && p.owner.agent == q.owner.agent && p.owner.repository == q.owner.repository && p.deadline == q.deadline && p.reader == q.reader
  }

  /** How the session's worker ended first, if it did: true for a failure. */
  function FirstEnd(es: seq<Event>, op: Id): Option<bool> {
    if es == [] then None
    else
      var before := FirstEnd(es[..|es| - 1], op);
      var e := es[|es| - 1];
      if before.Some? then before else if e.Ended? && e.op == op then Some(e.failed) else None
  }

  predicate WasActivated(es: seq<Event>, op: Id) {
    exists i :: 0 <= i < |es| && es[i] == Activated(op)
  }

  function PhaseAfter(later: seq<Event>, op: Id): Phase {
    match FirstEnd(later, op)
    case Some(failed) => if failed then Failed else Closed
    case None => if WasActivated(later, op) then Active else Starting
  }

  /** The session that an operation opened, after whatever happened since. */
  lemma {:induction false} SessionAfter(es: seq<Event>, p: Post, later: seq<Event>)
    requires Answer(Run(es), p).Opened?
    ensures var t := Run(es + [PostRequest(p)] + later);
            && p.op in t.sessions && SameIdentity(Answer(Run(es), p).session, t.sessions[p.op])
            && t.sessions[p.op].phase == PhaseAfter(later, p.op)
  {
    hide Answer;
    var start := es + [PostRequest(p)];
    if later == [] {
      assert start + later == start && start[..|start| - 1] == es;
      NewSessionStarts(Run(es), p);
    } else {
      var before, e := later[..|later| - 1], later[|later| - 1];
      assert (start + later)[..|start + later| - 1] == start + before;
      SessionAfter(es, p, before);
      StepKeeps(Run(start + before), e, p.op);
      PhaseStep(Run(start + before), before, e, p.op);
      assert before + [e] == later;
    }
  }

  lemma NewSessionStarts(t: Table, p: Post)
    requires Answer(t, p).Opened?
    ensures var s := Answer(t, p).session;
            s.phase == Starting && p.op !in t.sessions && Open(t, p).sessions == t.sessions[p.op := s]
  {
  }

  lemma PhaseStep(t: Table, before: seq<Event>, e: Event, op: Id)
    requires op in t.sessions && t.sessions[op].phase == PhaseAfter(before, op)
    ensures op in Advance(t, e).sessions && Advance(t, e).sessions[op].phase == PhaseAfter(before + [e], op)
  {
    hide Answer;
    var all := before + [e];
    assert all[..|all| - 1] == before;
    assert WasActivated(all, op) <==> WasActivated(before, op) || e == Activated(op) by {
      if WasActivated(before, op) {
        var i :| 0 <= i < |before| && before[i] == Activated(op);
        assert all[i] == Activated(op);
      }
      if e == Activated(op) { assert all[|before|] == Activated(op); }
    }
    hide WasActivated;
    if e.PostRequest? { RefusalConsumesNothing(t, e.post); }
  }

  /**
    A request that is repeated after any events finds the session that it opened first,
    in the phase that its worker has brought it to; any other request for the same
    operation conflicts with it.
   */
  lemma {:induction false} RepeatIff(es: seq<Event>, p: Post, later: seq<Event>, q: Post)
    requires Answer(Run(es), p).Opened? && q.op == p.op
    ensures var r := Answer(Run(es + [PostRequest(p)] + later), q);
            && (r.Found? <==> SameCall(p, q)) && (r.Conflict? <==> !SameCall(p, q))
            && (r.Found? ==> Some(r.session.id) == p.id && r.session.expires == Lifetime(p) && r.session.phase == PhaseAfter(later, p.op))
  {
    SessionAfter(es, p, later);
    OpenedFields(Run(es), p);
    hide Run, PhaseAfter, Lifetime, Occupied;
  }

  lemma OpenedFields(t: Table, p: Post)
    requires Answer(t, p).Opened?
    ensures p.id.Some? && Answer(t, p).session == NewSession(p, p.id.value)
  {
  }

  /** A first request opens a session exactly when nothing stands in its way, and the answer says what did. */
  lemma {:induction false} OpenedIff(t: Table, p: Post)
    requires p.op !in t.sessions
    ensures var r := Answer(t, p);
            var clash := exists op :: op in t.sessions && Live(t, op) &&
                           (t.sessions[op].repository == p.owner.repository || t.sessions[op].agent == p.owner.agent);
            && (r.Opened? <==> && p.now < p.deadline && p.owner.repository !in t.probing && !t.stopping && |t.sessions| < MAX_SESSIONS
                               && !clash && p.id.Some?)
            && (r.Expired? <==> p.deadline <= p.now)
            && (r.Busy? ==> p.owner.repository in t.probing || clash)
            && (r.Unavailable? ==> t.stopping || |t.sessions| >= MAX_SESSIONS || p.id.None?)
            && (r.Unavailable? ==> (r.hint <==> p.reader.None?))
            && !r.Found? && !r.Conflict?
  {
  }

  /** A new session lasts exactly as long as the request, the fixed window, the reader's certificate and the owner all allow. */
  lemma {:induction false} LifetimeIsGreatest(t: Table, p: Post, x: Time)
    requires Answer(t, p).Opened?
    ensures x <= Answer(t, p).session.expires <==>
            && x <= p.deadline && x <= p.owner.expires && x <= p.now + (if p.reader.Some? then READ_WINDOW else DAY)
            && (p.reader.Some? ==> x <= p.until)
  {
  }

  /**
    A refusal answers `Busy` or `Unavailable` only when the operation has no session,
    and it leaves the table as it was; a session is opened only for an operation that
    had none.
   */
  lemma {:induction false} RefusalConsumesNothing(t: Table, p: Post)
    ensures Answer(t, p).Busy? || Answer(t, p).Unavailable? || Answer(t, p).Expired? ==> p.op !in t.sessions && Open(t, p) == t
    ensures Answer(t, p).Opened? <==> p.op !in t.sessions && p.op in Open(t, p).sessions
    ensures Answer(t, p).Found? ==> Open(t, p) == t && Answer(t, p).session == t.sessions[p.op]
  {
  }
}

module SessionTable {
  import opened Basics
  import opened Spec = SessionSpec

  /** The service's table under its mutex; every method is one locked section. */
  class Service {
    var sessions: map<Id, Session>
    var probing: set<Id>
    var stopping: bool

    function Abs(): Table
      reads this
    {
      Table(sessions, probing, stopping)
    }

    constructor ()
      ensures Abs() == Run([])
    {
      sessions, probing, stopping := map[], {}, false;
    }

    /** Scan the sessions for a live one that shares the repository, or the agent when `agent` is given. */
    method Scan(repository: Id, agent: Option<Id>) returns (found: bool)
      ensures found <==> exists op :: op in sessions && !Terminal(sessions[op].phase) &&
                           (sessions[op].repository == repository || agent == Some(sessions[op].agent))
    {
      var rest := sessions.Keys;
      while rest != {}
        invariant rest <= sessions.Keys
        invariant forall op :: op in sessions && op !in rest ==>
                    Terminal(sessions[op].phase) || (sessions[op].repository != repository && agent != Some(sessions[op].agent))
        decreases |rest|
      {
        var op :| op in rest;
        var s := sessions[op];
        if !Terminal(s.phase) && (s.repository == repository || agent == Some(s.agent)) { return true; }
        rest := rest - {op};
      }
      return false;
    }

    method OpenSession(p: Post) returns (r: Response)
      modifies this
      ensures Abs() == Open(old(Abs()), p) && r == Answer(old(Abs()), p)
    {
      if p.op in sessions {
        return if SameRequest(sessions[p.op], p) then Found(sessions[p.op]) else Conflict;
      }
      if p.deadline <= p.now { return Expired; }
      if p.owner.repository in probing { return Busy; }
      if stopping || |sessions| >= MAX_SESSIONS { return Response.Unavailable(p.reader.None?); }
      var occupied := Scan(p.owner.repository, Some(p.owner.agent));
      assert occupied <==> Occupied(Abs(), p.owner);
      if occupied { return Busy; }
      if p.id.None? { return Response.Unavailable(p.reader.None?); }
      var deadline := p.now + if p.reader.Some? then READ_WINDOW else DAY;
      if p.deadline < deadline { deadline := p.deadline; }
      if p.reader.Some? && p.until < deadline { deadline := p.until; }
      if p.owner.expires < deadline { deadline := p.owner.expires; }
      var s := Session(p.owner.agent, p.owner.repository, p.reader, p.deadline, p.id.value, deadline, Starting, None, false);
      sessions := sessions[p.op := s];
      return Opened(s);
    }

    method Activate(op: Id)
      modifies this
      ensures Abs() == Spec.Activate(old(Abs()), op)
    {
      if op in sessions && sessions[op].phase == Starting {
        sessions := sessions[op := sessions[op].(phase := Active, endpoint := Some(sessions[op].id))];
      }
    }

    method End(op: Id, failed: bool)
      modifies this
      ensures Abs() == Spec.End(old(Abs()), op, failed)
    {
      if op in sessions && !Terminal(sessions[op].phase) {
        sessions := sessions[op := sessions[op].(phase := if failed then Failed else Closed, endpoint := None)];
      }
    }

    method RequestFinish(op: Id)
      modifies this
      ensures Abs() == Spec.RequestFinish(old(Abs()), op)
    {
      if op in sessions { sessions := sessions[op := sessions[op].(finishing := true)]; }
    }

    method BeginProbe(repository: Id) returns (idle: bool)
      modifies this
      ensures Abs() == Spec.BeginProbe(old(Abs()), repository)
      ensures !stopping ==> (idle <==> repository in probing)
    {
      if stopping { return false; }
      var active := Scan(repository, None);
      assert active <==> RepositoryActive(Abs(), repository);
      probing := if active then probing - {repository} else probing + {repository};
      idle := !active;
    }

    method EndProbe(repository: Id)
      modifies this
      ensures Abs() == Spec.EndProbe(old(Abs()), repository)
    {
      probing := probing - {repository};
    }
  }
}
