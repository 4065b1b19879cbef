/**
  The agent's client loop composed with the gateway's session table and the object
  guard of its session, over a network that loses and delays requests and a gateway
  that may restart.
 */
module HandshakeSpec {
  import opened Basics
  import opened S = SessionSpec
  import Guard = GuardSpec

  /** One operation identifier belongs to one client call; `hash` names objects. */
  datatype Call = Call(owner: Owner, op: Id, deadline: Time, hash: string -> string)

  /** `outstanding` counts POSTs that were sent and not yet handled; `guard` is that of the operation's session. */
  datatype Gateway = Gateway(table: Table, outstanding: nat, guard: Guard.World)

  /** What may happen meanwhile: a step of the gateway or of other clients, a restart, a late POST, a step of the guard. */
  datatype Ambient = Step(event: S.Event) | Restart | Late(now: Time, id: Option<Id>) | Guarded(step: Guard.Event)

  function PostOf(c: Call, now: Time, id: Option<Id>): Post {
    Post(c.owner, c.op, None, c.deadline, now, id, 0)
  }

  /** A session that opens gets a fresh guard in front of the backend as it stands. */
  function Opening(c: Call, g: Gateway, p: Post): Gateway {
    g.(table := Open(g.table, p), guard := if Answer(g.table, p).Opened? then Guard.Start(g.guard.backend) else g.guard)
  }

  /**
    A session's worker ends only after its route was withdrawn, its guard closed and
    the requests inside it joined: from then on writes already on their way still
    arrive, and a request that was routed before finds the guard closed.
   */
  function Ending(c: Call, g: Gateway, e: S.Event): Gateway {
    g.(table := Advance(g.table, e),
       guard := if e.Ended? && e.op == c.op && Live(g.table, c.op) then Guard.Advance(g.guard, c.hash, false, Guard.Close) else g.guard)
  }

  predicate Enabled(c: Call, g: Gateway, e: Guard.Event) {
    Guard.Possible(g.guard, e) && !e.Close? && (Live(g.table, c.op) || e.Arrives? || (e.Requested? && g.guard.closed))
  }

  function Ambience(c: Call, g: Gateway, a: Ambient): Gateway {
    match a
    case Step(e) => if e.PostRequest? && e.post.op == c.op then g else Ending(c, g, e)
    case Restart => g.(table := Table(map[], {}, false))
    case Late(now, id) =>
      if g.outstanding == 0 then g else Opening(c, g, PostOf(c, now, id)).(outstanding := g.outstanding - 1)
    case Guarded(e) => if Enabled(c, g, e) then g.(guard := Guard.Advance(g.guard, c.hash, false, e)) else g
  }

  function Meanwhile(c: Call, g: Gateway, events: seq<Ambient>): Gateway {
    if events == [] then g else Ambience(c, Meanwhile(c, g, events[..|events| - 1]), events[|events| - 1])
  }

  // ----- one exchange -----

  datatype Fate =
    | NoDial(transient: bool)
    | Lost(transient: bool)
    | Turned(status: nat, retryAfter: bool, hint: Option<Hint>, readable: bool)
    | Handled(now: Time, id: Option<Id>, during: seq<Ambient>, answered: bool, transient: bool, readable: bool)

  /** A request turned away before the table is never answered as the table would answer it. */
  predicate Genuine(f: Fate) {
    f.Turned? ==> f.status !in {200, 202, 204, 409}
  }

  datatype Reply =
    | Error(dial: bool, transient: bool)
    | Reply(status: nat, retryAfter: bool, hint: Option<Hint>, body: Option<Session>, readable: bool)

  function Body(t: Table, op: Id): Option<Session> {
    if op in t.sessions then Some(t.sessions[op]) else None
  }

  function PostReply(r: Response, t: Table, op: Id, readable: bool): Reply {
    match r
    case Conflict => Reply(409, false, None, None, readable)
    case Expired => Reply(400, false, None, None, readable)
    case Busy => Reply(409, true, None, None, readable)
    case Unavailable(hint) => Reply(503, false, if hint then Some(Hint.Unavailable) else None, None, readable)
    case Found(_) => Reply(200, false, None, Body(t, op), readable)
    case Opened(_) => Reply(202, false, None, Body(t, op), readable)
  }

  /** A restart or a lost answer reaches the client as a transport error. */
  function Answered(f: Fate, r: Reply): Reply
    requires f.Handled?
  {
    if f.answered && Restart !in f.during then r else Error(false, f.transient)
  }

  function PostExchange(c: Call, g: Gateway, f: Fate): (Gateway, Reply) {
    match f
    case NoDial(transient) => (g, Error(true, transient))
    case Lost(transient) => (g.(outstanding := g.outstanding + 1), Error(false, transient))
    case Turned(status, retryAfter, hint, readable) => (g, Reply(status, retryAfter, hint, None, readable))
    case Handled(now, id, during, _, _, readable) =>
      var p := PostOf(c, now, id);
      var h := Meanwhile(c, Opening(c, g, p), during);
      (h, Answered(f, PostReply(Answer(g.table, p), h.table, c.op, readable)))
  }

  function GetExchange(c: Call, g: Gateway, f: Fate): (Gateway, Reply) {
    match f
    case NoDial(transient) => (g, Error(true, transient))
    case Lost(transient) => (g, Error(false, transient))
    case Turned(status, retryAfter, hint, readable) => (g, Reply(status, retryAfter, hint, None, readable))
    case Handled(_, _, during, _, _, readable) =>
      var h := Meanwhile(c, g, during);
      (h, Answered(f, if c.op in h.table.sessions then Reply(200, false, None, Body(h.table, c.op), readable)
                      else Reply(404, false, None, None, readable)))
  }

  /** Deletion asks the session to finish and answers once it has, or gives up waiting. */
  function DeleteExchange(c: Call, g: Gateway, f: Fate): (Gateway, Reply) {
    match f
    case NoDial(transient) => (g, Error(true, transient))
    case Lost(transient) => (g, Error(false, transient))
    case Turned(status, retryAfter, hint, readable) => (g, Reply(status, retryAfter, hint, None, readable))
    case Handled(_, _, during, _, _, readable) =>
      var h := Meanwhile(c, g.(table := RequestFinish(g.table, c.op)), during);
      (h, Answered(f, if c.op !in g.table.sessions then Reply(404, false, None, None, readable)
                      else if c.op in h.table.sessions && h.table.sessions[c.op].phase == Closed then Reply(204, false, Guard.Code(h.guard.flags), None, readable)
                      else Reply(503, false, None, None, readable)))
  }

  // ----- pure classifications -----

  function StatusFailure(status: nat): Option<Hint> {
    if status == 429 then Some(RateLimited) else if status in {500, 502, 503, 504} then Some(Hint.Unavailable) else None
  }

  // ----- what ambient steps keep -----

  /** At most one POST is unaccounted for, and none once the operation has a session; its guard has missed no request. */
  ghost predicate Tracked(c: Call, g: Gateway) {
    && g.outstanding <= 1
    && (c.op in g.table.sessions ==> g.outstanding == 0 && Guard.Reached(c.hash, g.guard))
  }

  /** No session was consumed and none can appear. */
  predicate Untouched(c: Call, g: Gateway) {
    g.outstanding == 0 && c.op !in g.table.sessions
  }

  /** No session of the operation is alive, and none can come alive. */
  predicate Settled(c: Call, g: Gateway) {
    g.outstanding == 0 && !Live(g.table, c.op)
  }

  lemma OpeningKeeps(c: Call, g: Gateway, p: Post)
    requires p.op == c.op && c.op !in g.table.sessions
    ensures var h := Opening(c, g, p); c.op in h.table.sessions ==> Guard.Reached(c.hash, h.guard)
    ensures Opening(c, g, p).outstanding == g.outstanding
  {
    Guard.ReachedStart(c.hash, g.guard.backend);
    hide Answer, Guard.Reached;
  }

  /** No other request can create this operation's session or revive it. */
  lemma OtherStep(c: Call, t: Table, e: S.Event)
    requires e.PostRequest? ==> e.post.op != c.op
    ensures c.op in Advance(t, e).sessions <==> c.op in t.sessions
    ensures c.op in t.sessions && Terminal(t.sessions[c.op].phase) ==>
              Advance(t, e).sessions[c.op].phase == t.sessions[c.op].phase
  {
    hide Answer, Occupied, SameRequest, Lifetime, RepositoryActive;
  }

  /** Each guard step, and closing, is a step of the same guard. */
  lemma GuardKeeps(c: Call, g: Gateway, e: Guard.Event)
    requires Guard.Reached(c.hash, g.guard) && Guard.Possible(g.guard, e)
    ensures Guard.Reached(c.hash, Guard.Advance(g.guard, c.hash, false, e))
  {
    Guard.ReachedStep(c.hash, g.guard, e);
  }

  lemma AmbienceTracked(c: Call, g: Gateway, a: Ambient)
    requires Tracked(c, g)
    ensures Tracked(c, Ambience(c, g, a))
    ensures g.outstanding == 0 ==> Ambience(c, g, a).outstanding == 0
  {
    hide Answer, Guard.Reached, Guard.Advance, Guard.Possible;
    match a
    case Step(e) =>
      if !(e.PostRequest? && e.post.op == c.op) {
        OtherStep(c, g.table, e);
        if c.op in g.table.sessions { CloseKeeps(c, g); }
        hide Advance;
      }
    case Restart =>
    case Late(now, id) => if g.outstanding > 0 { OpeningKeeps(c, g, PostOf(c, now, id)); }
    case Guarded(e) => if Enabled(c, g, e) && c.op in g.table.sessions { GuardKeeps(c, g, e); }
  }

  lemma CloseKeeps(c: Call, g: Gateway)
    requires Guard.Reached(c.hash, g.guard)
    ensures Guard.Reached(c.hash, Guard.Advance(g.guard, c.hash, false, Guard.Close))
  {
    GuardKeeps(c, g, Guard.Close);
  }

  lemma ClosedDenies(c: Call, w: Guard.World, e: Guard.Event)
    requires e.Requested? && w.closed
    ensures Guard.Advance(w, c.hash, false, e) == w.(flags := w.flags.(unsafe := true))
  {
  }

  /** What the session wrote, and its retry code but for a late denial that withdraws it. */
  predicate Final(g: Gateway, h: Gateway) {
    h.guard.history == g.guard.history && Guard.Code(h.guard.flags) in {Guard.Code(g.guard.flags), None}
  }

  /** Once settled, what the session wrote is final too. */
  lemma AmbienceSettled(c: Call, g: Gateway, a: Ambient)
    ensures Untouched(c, g) ==> Untouched(c, Ambience(c, g, a))
    ensures Settled(c, g) ==> Settled(c, Ambience(c, g, a))
    ensures Settled(c, g) ==> Final(g, Ambience(c, g, a))
  {
    hide Answer, Occupied, SameRequest, Lifetime, RepositoryActive, Guard.Serve;
    if a.Guarded? && a.step.Requested? && g.guard.closed { ClosedDenies(c, g.guard, a.step); }
    if a.Step? && !(a.event.PostRequest? && a.event.post.op == c.op) { OtherStep(c, g.table, a.event); hide Advance; }
  }

  lemma {:induction false} MeanwhileKeeps(c: Call, g: Gateway, events: seq<Ambient>)
    requires Tracked(c, g)
    ensures Tracked(c, Meanwhile(c, g, events))
    ensures Untouched(c, g) ==> Untouched(c, Meanwhile(c, g, events))
    ensures Settled(c, g) ==> Settled(c, Meanwhile(c, g, events))
    ensures Settled(c, g) ==> Final(g, Meanwhile(c, g, events))
    ensures g.outstanding == 0 ==> Meanwhile(c, g, events).outstanding == 0
  {
    hide Ambience, Tracked, Untouched, Settled;
    if events != [] {
      MeanwhileKeeps(c, g, events[..|events| - 1]);
      AmbienceTracked(c, Meanwhile(c, g, events[..|events| - 1]), events[|events| - 1]);
      AmbienceSettled(c, Meanwhile(c, g, events[..|events| - 1]), events[|events| - 1]);
    }
  }

  /** Of all answers to a POST, only a failed dial, a hinted refusal and a busy answer prove that nothing was consumed. */
  lemma {:induction false} PostOutcome(c: Call, g: Gateway, f: Fate)
    requires Untouched(c, g) && Genuine(f)
    ensures var (h, r) := PostExchange(c, g, f);
            && Tracked(c, h)
            && (r.Error? && r.dial ==> Untouched(c, h))
            && (r.Reply? ==> h.outstanding == 0)
            && (r.Reply? && r.status == 409 && r.retryAfter ==> Untouched(c, h))
            && (r.Reply? && r.hint.Some? && (r.status == 503 || r.status == 429) ==> Untouched(c, h))
  {
    if f.Handled? {
      var p := PostOf(c, f.now, f.id);
      RefusalConsumesNothing(g.table, p);
      OpeningKeeps(c, g, p);
      hide Answer, Occupied, SameRequest, Lifetime, Guard.Reached;
      MeanwhileKeeps(c, Opening(c, g, p), f.during);
      hide Meanwhile;
    }
  }

  lemma GetOutcome(c: Call, g: Gateway, f: Fate)
    requires Tracked(c, g) && g.outstanding == 0
    ensures var (h, r) := GetExchange(c, g, f); Tracked(c, h) && h.outstanding == 0
  {
    hide Guard.Reached;
    if f.Handled? { MeanwhileKeeps(c, g, f.during); }
    hide Meanwhile;
  }

  /**
    A 204 proves that the operation's session is closed and that no POST of it is
    still on its way; its hint is the code, at that moment, of the session's whole history.
   */
  lemma {:induction false} DeleteOutcome(c: Call, g: Gateway, f: Fate)
    requires Tracked(c, g) && Genuine(f)
    ensures var (h, r) := DeleteExchange(c, g, f);
            r.Reply? && r.status == 204 ==>
              && Settled(c, h) && c.op in h.table.sessions && h.table.sessions[c.op].phase == Closed
              && r.hint == Guard.Code(h.guard.flags) && Guard.Reached(c.hash, h.guard)
  {
    hide Guard.Reached;
    if f.Handled? {
      var m := g.(table := RequestFinish(g.table, c.op));
      assert Tracked(c, m);
      MeanwhileKeeps(c, m, f.during);
      hide Meanwhile;
    }
  }
}

module Handshake {
  import opened Basics
  import opened S = SessionSpec
  import opened HandshakeSpec

  datatype Outcome = Done | SessionError | CleanupError | BusyError | FailedWith(hint: Hint) | ContextError

  datatype Method = PostMethod | GetMethod

  /**
    One turn of the loop: what happened since the last one, the exchange, and what
    the client then finds: its context ended, its retry window over, the answer's
    times acceptable, its work done without error.
   */
  datatype Turn = Turn(before: seq<Ambient>, fate: Fate, contextDone: bool, windowOver: bool, timely: bool, worked: bool)

  /** The connection through which one client call reaches the gateway. */
  class Network {
    const call: Call
    var g: Gateway

    constructor (call: Call, g: Gateway)
      ensures this.call == call && this.g == g
    {
      this.call, this.g := call, g;
    }

    method Exchange(m: Method, t: Turn) returns (r: Reply)
      modifies this
      ensures var h := Meanwhile(call, old(g), t.before);
              (g, r) == if m == PostMethod then PostExchange(call, h, t.fate) else GetExchange(call, h, t.fate)
    {
      g := Meanwhile(call, g, t.before);
      var (h, reply) := if m == PostMethod then PostExchange(call, g, t.fate) else GetExchange(call, g, t.fate);
      g, r := h, reply;
    }

    method Delete(t: Turn) returns (r: Reply)
      modifies this
      ensures (g, r) == DeleteExchange(call, Meanwhile(call, old(g), t.before), t.fate)
    {
      g := Meanwhile(call, g, t.before);
      var (h, reply) := DeleteExchange(call, g, t.fate);
      g, r := h, reply;
    }
  }

  /** The next thing the loop does after an answer. */
  datatype Verdict = Return(outcome: Outcome, cleanup: bool) | Run | Poll | Repeat

  function Judge(m: Method, r: Reply, t: Turn, deadline: Time): Verdict {
    if r.Error? then
      if t.contextDone then Return(ContextError, true)
      else if r.transient then Return(FailedWith(Hint.Unavailable), !(m == PostMethod && r.dial))
      else Return(SessionError, true)
    else if r.readable && StatusFailure(r.status).Some? then
      Return(FailedWith(StatusFailure(r.status).value),
             !(m == PostMethod && (r.status == 503 || r.status == 429) && r.hint == StatusFailure(r.status)))
    else if m == PostMethod && r.status == 409 && r.retryAfter then
      if !r.readable || t.windowOver then Return(BusyError, false)
      else if t.contextDone then Return(SessionError, false)
      else Repeat
    else if !r.readable || (r.status != 200 && r.status != 202) || r.body.None? || !t.timely || r.body.value.expires > deadline
    then Return(SessionError, true)
    else if r.body.value.phase == Active then
      if r.body.value.endpoint == Some(r.body.value.id) then Run else Return(SessionError, true)
    else if r.body.value.phase == Starting && r.body.value.endpoint == None then
      if t.contextDone then Return(SessionError, true) else Poll
    else Return(SessionError, true)
  }

  /** What each verdict on an answer proves about the gateway. */
  lemma {:induction false} VerdictSound(c: Call, g: Gateway, m: Method, t: Turn)
    requires Tracked(c, g) && g.outstanding == 0 && (m == PostMethod ==> Untouched(c, g)) && Genuine(t.fate)
    ensures var e := Meanwhile(c, g, t.before);
            var (h, r) := if m == PostMethod then PostExchange(c, e, t.fate) else GetExchange(c, e, t.fate);
            var v := Judge(m, r, t, c.deadline);
            && Tracked(c, h)
            && (v.Return? && !v.cleanup ==> Untouched(c, h))
            && (v.Return? ==> v.outcome != Done && v.outcome != CleanupError)
            && (!v.Return? ==> h.outstanding == 0)
            && (v == Repeat ==> m == PostMethod && Untouched(c, h))
  {
    MeanwhileKeeps(c, g, t.before);
    var e := Meanwhile(c, g, t.before);
    hide Meanwhile, PostExchange, GetExchange;
    if m == PostMethod { PostOutcome(c, e, t.fate); } else { GetOutcome(c, e, t.fate); }
  }

  // ----- the conversation, from the answers alone -----

  /** A readable answer with a session that the client could use: timely, and within its own deadline. */
  predicate Usable(r: Reply, t: Turn, deadline: Time) {
    r.Reply? && r.readable && r.status in {200, 202} && r.body.Some? && t.timely && r.body.value.expires <= deadline
  }

  /** The session is active under its own endpoint. */
  predicate IsActive(r: Reply, t: Turn, deadline: Time) {
    Usable(r, t, deadline) && r.body.value.phase == Active && r.body.value.endpoint == Some(r.body.value.id)
  }

  /** The session is starting, and the client may ask again. */
  predicate IsStarting(r: Reply, t: Turn, deadline: Time) {
    Usable(r, t, deadline) && r.body.value.phase == Starting && r.body.value.endpoint == None && !t.contextDone
  }

  /** A readable busy answer to a POST, inside the retry window and with the context alive. */
  predicate IsBusy(m: Method, r: Reply, t: Turn) {
    m == PostMethod && r.Reply? && r.readable && r.status == 409 && r.retryAfter && !t.windowOver && !t.contextDone
  }

  function Exchanged(c: Call, g: Gateway, m: Method, t: Turn): (Gateway, Reply) {
    var h := Meanwhile(c, g, t.before);
    if m == PostMethod then PostExchange(c, h, t.fate) else GetExchange(c, h, t.fate)
  }

  /** The gateway and the client's next method once the first n turns were answered. */
  function After(c: Call, g: Gateway, turns: seq<Turn>, n: nat): (Gateway, Method)
    requires n <= |turns|
  {
    if n == 0 then (g, PostMethod)
    else
      var (h, m) := After(c, g, turns, n - 1);
      var (k, r) := Exchanged(c, h, m, turns[n - 1]);
      (k, if IsStarting(r, turns[n - 1], c.deadline) then GetMethod else m)
  }

  function ReplyAt(c: Call, g: Gateway, turns: seq<Turn>, i: nat): Reply
    requires i < |turns|
  {
    var (h, m) := After(c, g, turns, i);
    Exchanged(c, h, m, turns[i]).1
  }

  /** The answer to turn i lets the conversation go on. */
  predicate GoesOn(c: Call, g: Gateway, turns: seq<Turn>, i: nat)
    requires i < |turns|
  {
    var r := ReplyAt(c, g, turns, i);
    IsStarting(r, turns[i], c.deadline) || IsBusy(After(c, g, turns, i).1, r, turns[i])
  }

  predicate ComesTo(c: Call, g: Gateway, turns: seq<Turn>, n: nat)
    requires n <= |turns|
  {
    forall i :: 0 <= i < n ==> GoesOn(c, g, turns, i)
  }

  /** The work runs in turn i: its answer is an active session, and every answer before it let the conversation go on. */
  predicate RunsAt(c: Call, g: Gateway, turns: seq<Turn>, i: nat)
    requires i < |turns|
  {
    ComesTo(c, g, turns, i) && IsActive(ReplyAt(c, g, turns, i), turns[i], c.deadline)
  }

  /** The conversation stops in turn i with neither. */
  predicate StopsAt(c: Call, g: Gateway, turns: seq<Turn>, i: nat)
    requires i < |turns|
  {
    ComesTo(c, g, turns, i) && !GoesOn(c, g, turns, i) && !IsActive(ReplyAt(c, g, turns, i), turns[i], c.deadline)
  }

  /** The answer to the cleanup that follows the first n turns. */
  function DeleteReply(c: Call, g: Gateway, turns: seq<Turn>, n: nat, last: Turn): Reply
    requires n <= |turns|
  {
    DeleteExchange(c, Meanwhile(c, After(c, g, turns, n).0, last.before), last.fate).1
  }

  predicate Confirms(r: Reply) {
    r.Reply? && r.status == 204
  }

  /** How the work's own result and the confirmed closure decide the outcome. */
  function WorkOutcome(worked: bool, d: Reply): Outcome {
    if !Confirms(d) then CleanupError
    else if worked then Done
    else if d.hint.Some? then FailedWith(d.hint.value)
    else SessionError
  }

  /** Answers to a POST after which no session needs to be cleaned up. */
  predicate NothingToClean(m: Method, r: Reply, t: Turn) {
    m == PostMethod &&
    match r
    case Error(dial, transient) => dial && transient && !t.contextDone
    case Reply(status, retryAfter, hint, _, readable) =>
      || (readable && status == 429 && hint == Some(RateLimited))
      || (readable && status == 503 && hint == Some(Hint.Unavailable))
      || (status == 409 && retryAfter)
  }

  /** What the client reports of an answer that stopped it, kind by kind. */
  predicate Reported(m: Method, r: Reply, t: Turn, outcome: Outcome) {
    match r
    case Error(_, transient) =>
      && (t.contextDone ==> outcome == ContextError)
      && (!t.contextDone && transient ==> outcome == FailedWith(Hint.Unavailable))
      && (!t.contextDone && !transient ==> outcome == SessionError)
    case Reply(status, retryAfter, _, _, readable) =>
      && (readable && status == 429 ==> outcome == FailedWith(RateLimited))
      && (readable && status in {500, 502, 503, 504} ==> outcome == FailedWith(Hint.Unavailable))
      && (m == PostMethod && status == 409 && retryAfter && (!readable || t.windowOver) ==> outcome == BusyError)
      && (m == PostMethod && status == 409 && retryAfter && readable && !t.windowOver ==> outcome == SessionError)
      && (!(readable && status in {429, 500, 502, 503, 504}) && !(m == PostMethod && status == 409 && retryAfter) ==> outcome == SessionError)
  }

  /** The loop's judgement of an answer, against the four kinds. */
  lemma {:induction false} JudgedAs(m: Method, r: Reply, t: Turn, deadline: Time)
    ensures var v := Judge(m, r, t, deadline);
            && (v == Run <==> IsActive(r, t, deadline))
            && (v == Poll <==> IsStarting(r, t, deadline))
            && (v == Repeat <==> IsBusy(m, r, t))
            && (v.Return? ==> Reported(m, r, t, v.outcome) && (v.cleanup <==> !NothingToClean(m, r, t)))
  {
  }

  predicate ClosedOn(c: Call, g: Gateway) {
    c.op in g.table.sessions && g.table.sessions[c.op].phase == Closed
  }

  /** A conversation has at most one turn that neither goes on nor follows one that did not. */
  lemma EndsOnce(c: Call, g: Gateway, turns: seq<Turn>, n: nat, i: nat)
    requires n < |turns| && i < |turns| && ComesTo(c, g, turns, n) && !GoesOn(c, g, turns, n)
    ensures i != n ==> !RunsAt(c, g, turns, i) && !StopsAt(c, g, turns, i)
    ensures !ComesTo(c, g, turns, |turns|)
  {
    hide ReplyAt, After, IsActive, IsStarting, IsBusy;
    if i < n {
      assert GoesOn(c, g, turns, i);
      OneKind(After(c, g, turns, i).1, ReplyAt(c, g, turns, i), turns[i], c.deadline);
    }
  }

  /** How a conversation ended: after n turns, with the verdict on the last of them, or with none. */
  predicate Ended(c: Call, g: Gateway, turns: seq<Turn>, n: nat, v: Option<Verdict>) {
    && n <= |turns|
    && (v.None? ==> n == |turns| && ComesTo(c, g, turns, n))
    && (v.Some? ==>
          && n > 0 && ComesTo(c, g, turns, n - 1)
          && var m, r := After(c, g, turns, n - 1).1, ReplyAt(c, g, turns, n - 1);
             && v == Some(Judge(m, r, turns[n - 1], c.deadline)) && (v.value == Run || v.value.Return?))
  }

  /** The exchanges of the loop, until an answer ends them or no more is answered. */
  method Converse(net: Network, turns: seq<Turn>) returns (n: nat, m: Method, v: Option<Verdict>)
    requires Untouched(net.call, net.g) && forall i :: 0 <= i < |turns| ==> Genuine(turns[i].fate)
    modifies net
    ensures Ended(net.call, old(net.g), turns, n, v) && net.g == After(net.call, old(net.g), turns, n).0
    ensures Tracked(net.call, net.g)
    ensures v.None? ==> net.g.outstanding == 0 && (m == PostMethod ==> Untouched(net.call, net.g))
    ensures v.Some? && v.value.Return? ==>
              (!v.value.cleanup ==> Untouched(net.call, net.g)) && v.value.outcome != Done && v.value.outcome != CleanupError
  {
    ghost var g := net.g;
    hide Judge, Genuine, PostExchange, GetExchange, Meanwhile, IsStarting, IsBusy;
    n, m, v := 0, PostMethod, None;
    while n < |turns|
      invariant n <= |turns| && v.None? && ComesTo(net.call, g, turns, n)
      invariant (net.g, m) == After(net.call, g, turns, n)
      invariant Tracked(net.call, net.g) && net.g.outstanding == 0
      invariant m == PostMethod ==> Untouched(net.call, net.g)
    {
      VerdictSound(net.call, net.g, m, turns[n]);
      var r := net.Exchange(m, turns[n]);
      var w := Judge(m, r, turns[n], net.call.deadline);
      JudgedAs(m, r, turns[n], net.call.deadline);
      assert r == ReplyAt(net.call, g, turns, n);
      n := n + 1;
      if w == Run || w.Return? {
        v := Some(w);
        return;
      }
      if w == Poll { m := GetMethod; }
    }
  }

  /**
    The client call.  Whatever it returns other than a cleanup error, no session of
    its operation is alive on the gateway and none can come alive; success means that
    the work ran without error and that the closure was confirmed; a failure code
    after the work has started is the closed session's own, as of the confirmation.
    The answers decide whether the work runs and what is returned (`Faithful`).
    `confirmed` is the gateway as its last answer leaves it, `after` what happens while
    that answer travels.
   */
  method WithSession(net: Network, turns: seq<Turn>, last: Turn, after: seq<Ambient>)
    returns (result: Outcome, executed: bool, worked: bool, ghost confirmed: Gateway)
    requires Untouched(net.call, net.g)
    requires Genuine(last.fate) && forall i :: 0 <= i < |turns| ==> Genuine(turns[i].fate)
    modifies net
    ensures result != CleanupError ==> Settled(net.call, net.g) && Final(confirmed, net.g)
    ensures result == Done ==> executed && worked && ClosedOn(net.call, confirmed)
    ensures result.FailedWith? && executed ==>
              && !worked && ClosedOn(net.call, confirmed)
              && Guard.Reached(net.call.hash, confirmed.guard) && Guard.Code(confirmed.guard.flags) == Some(result.hint)
    ensures result == BusyError ==> !executed && Untouched(net.call, net.g)
    ensures Faithful(net.call, old(net.g), turns, last, result, executed, worked)
  {
    ghost var g := net.g;
    var n, m, v := Converse(net, turns);
    EndedAs(net.call, g, turns, n, v);
    hide Judge, Genuine, Meanwhile, After, ReplyAt, RunsAt, StopsAt, ComesTo, Ended, IsActive, GoesOn, Reported, NothingToClean, DeleteExchange, Faithful;
    result, executed, worked := ContextError, false, false;
    var cleanup := true;
    if v.None? {
      // The context ends before another answer: the request may have been sent all the same.
      if m == PostMethod { net.g := net.g.(outstanding := 1); }
    } else if v.value.Return? {
      result, cleanup := v.value.outcome, v.value.cleanup;
    } else {
      executed, worked := true, turns[n - 1].worked;
      result := if worked then Done else SessionError;
    }
    if cleanup { result := CleanUp(net, last, result, executed); }
    FaithfulFrom(net.call, g, turns, last, n, v, result);
    confirmed := net.g;
    Afterwards(net.call, net.g, after);
    net.g := Meanwhile(net.call, net.g, after);
  }

  /** The outcome once the cleanup was answered. */
  function Cleaned(outcome: Outcome, executed: bool, d: Reply): Outcome {
    if !Confirms(d) then CleanupError
    else if executed && outcome == SessionError && d.hint.Some? then FailedWith(d.hint.value)
    else outcome
  }

  method CleanUp(net: Network, last: Turn, outcome: Outcome, executed: bool) returns (result: Outcome)
    requires Tracked(net.call, net.g) && Genuine(last.fate)
    modifies net
    ensures var d := DeleteExchange(net.call, Meanwhile(net.call, old(net.g), last.before), last.fate).1;
            && result == Cleaned(outcome, executed, d)
            && (Confirms(d) ==> && Settled(net.call, net.g) && ClosedOn(net.call, net.g)
                                && d.hint == Guard.Code(net.g.guard.flags) && Guard.Reached(net.call.hash, net.g.guard))
  {
    hide Meanwhile, DeleteExchange, Guard.Reached;
    MeanwhileKeeps(net.call, net.g, last.before);
    DeleteOutcome(net.call, Meanwhile(net.call, net.g, last.before), last.fate);
    var r := net.Delete(last);
    result := outcome;
    if r.Error? || r.status != 204 {
      result := CleanupError;
    } else if executed && result == SessionError && r.hint.Some? {
      result := FailedWith(r.hint.value);
    }
  }

  /**
    The work runs exactly if some answer is an active session and all before it let the
    conversation go on; then the work and the cleanup's answer decide the outcome.  An
    answer that stops the conversation is reported for what it is, unless a cleanup
    was needed and not confirmed.
   */
  predicate Faithful(c: Call, g: Gateway, turns: seq<Turn>, last: Turn, result: Outcome, executed: bool, worked: bool) {
    && (executed <==> exists i :: 0 <= i < |turns| && RunsAt(c, g, turns, i))
    && (forall i :: 0 <= i < |turns| && RunsAt(c, g, turns, i) ==>
          worked == turns[i].worked && result == WorkOutcome(worked, DeleteReply(c, g, turns, i + 1, last)))
    && (forall i :: 0 <= i < |turns| && StopsAt(c, g, turns, i) ==>
          var m, r := After(c, g, turns, i).1, ReplyAt(c, g, turns, i);
          if NothingToClean(m, r, turns[i]) || Confirms(DeleteReply(c, g, turns, i + 1, last))
          then Reported(m, r, turns[i], result) else result == CleanupError)
    && (ComesTo(c, g, turns, |turns|) ==> result in {ContextError, CleanupError})
  }

  lemma CleanedIs(outcome: Outcome, worked: bool, d: Reply)
    ensures Cleaned(if worked then Done else SessionError, true, d) == WorkOutcome(worked, d)
    ensures Cleaned(outcome, false, d) == if Confirms(d) then outcome else CleanupError
  {
  }

  lemma FaithfulRun(c: Call, g: Gateway, turns: seq<Turn>, last: Turn, n: nat, result: Outcome)
    requires 0 < n <= |turns| && RunsAt(c, g, turns, n - 1) && !StopsAt(c, g, turns, n - 1) && !ComesTo(c, g, turns, |turns|)
    requires forall i :: 0 <= i < |turns| && i != n - 1 ==> !RunsAt(c, g, turns, i) && !StopsAt(c, g, turns, i)
    requires result == WorkOutcome(turns[n - 1].worked, DeleteReply(c, g, turns, n, last))
    ensures Faithful(c, g, turns, last, result, true, turns[n - 1].worked)
  {
    hide After, ReplyAt, RunsAt, StopsAt, ComesTo, Reported, NothingToClean, DeleteReply, Confirms, WorkOutcome;
  }

  lemma FaithfulStop(c: Call, g: Gateway, turns: seq<Turn>, last: Turn, n: nat, outcome: Outcome, cleanup: bool, result: Outcome)
    requires 0 < n <= |turns| && !RunsAt(c, g, turns, n - 1) && !ComesTo(c, g, turns, |turns|)
    requires forall i :: 0 <= i < |turns| && i != n - 1 ==> !RunsAt(c, g, turns, i) && !StopsAt(c, g, turns, i)
    requires var m, r := After(c, g, turns, n - 1).1, ReplyAt(c, g, turns, n - 1);
             Reported(m, r, turns[n - 1], outcome) && (cleanup <==> !NothingToClean(m, r, turns[n - 1]))
    requires result == if cleanup && !Confirms(DeleteReply(c, g, turns, n, last)) then CleanupError else outcome
    ensures Faithful(c, g, turns, last, result, false, false)
  {
    hide After, ReplyAt, RunsAt, StopsAt, ComesTo, Reported, NothingToClean, DeleteReply, Confirms, WorkOutcome;
  }

  lemma FaithfulFrom(c: Call, g: Gateway, turns: seq<Turn>, last: Turn, n: nat, v: Option<Verdict>, result: Outcome)
    requires Ended(c, g, turns, n, v)
    requires v.None? ==> result in {ContextError, CleanupError}
    requires v.Some? && v.value.Return? ==>
               result == if v.value.cleanup then Cleaned(v.value.outcome, false, DeleteReply(c, g, turns, n, last)) else v.value.outcome
    requires v == Some(Run) ==>
               n > 0 && result == Cleaned(if turns[n - 1].worked then Done else SessionError, true, DeleteReply(c, g, turns, n, last))
    ensures Faithful(c, g, turns, last, result, v == Some(Run), v == Some(Run) && turns[n - 1].worked)
  {
    EndedAs(c, g, turns, n, v);
    hide After, ReplyAt, RunsAt, StopsAt, ComesTo, Reported, NothingToClean, DeleteReply, Confirms, WorkOutcome, Cleaned, Ended;
    if v == Some(Run) {
      CleanedIs(Done, turns[n - 1].worked, DeleteReply(c, g, turns, n, last));
      FaithfulRun(c, g, turns, last, n, result);
      hide Faithful;
    } else if v.Some? {
      CleanedIs(v.value.outcome, false, DeleteReply(c, g, turns, n, last));
      FaithfulStop(c, g, turns, last, n, v.value.outcome, v.value.cleanup, result);
      hide Faithful;
    }
  }

  /** The end of a conversation in terms of its answers. */
  lemma EndedAs(c: Call, g: Gateway, turns: seq<Turn>, n: nat, v: Option<Verdict>)
    requires Ended(c, g, turns, n, v)
    ensures n <= |turns|
    ensures v.None? ==> n == |turns| && ComesTo(c, g, turns, n) && forall i :: 0 <= i < |turns| ==> !RunsAt(c, g, turns, i) && !StopsAt(c, g, turns, i)
    ensures v.Some? ==>
              && n > 0 && !ComesTo(c, g, turns, |turns|)
              && (forall i :: 0 <= i < |turns| && i != n - 1 ==> !RunsAt(c, g, turns, i) && !StopsAt(c, g, turns, i))
              && (RunsAt(c, g, turns, n - 1) <==> v.value == Run) && (StopsAt(c, g, turns, n - 1) <==> v.value.Return?)
              && (v.value == Run || v.value.Return?)
              && var m, r := After(c, g, turns, n - 1).1, ReplyAt(c, g, turns, n - 1);
                 v.value.Return? ==> Reported(m, r, turns[n - 1], v.value.outcome) && (v.value.cleanup <==> !NothingToClean(m, r, turns[n - 1]))
  {
    hide ReplyAt, After, Judge, IsActive, IsStarting, IsBusy, Reported, NothingToClean;
    if v.Some? {
      JudgedAs(After(c, g, turns, n - 1).1, ReplyAt(c, g, turns, n - 1), turns[n - 1], c.deadline);
      forall i | 0 <= i < |turns| && i != n - 1 ensures !RunsAt(c, g, turns, i) && !StopsAt(c, g, turns, i) {
        EndsOnce(c, g, turns, n - 1, i);
      }
      EndsOnce(c, g, turns, n - 1, n - 1);
    } else {
      forall i | 0 <= i < |turns| ensures !RunsAt(c, g, turns, i) && !StopsAt(c, g, turns, i) {
        assert GoesOn(c, g, turns, i);
        OneKind(After(c, g, turns, i).1, ReplyAt(c, g, turns, i), turns[i], c.deadline);
      }
    }
  }

  lemma OneKind(m: Method, r: Reply, t: Turn, deadline: Time)
    ensures IsActive(r, t, deadline) ==> !IsStarting(r, t, deadline) && !IsBusy(m, r, t)
  {
  }

  lemma Afterwards(c: Call, g: Gateway, after: seq<Ambient>)
    ensures Settled(c, g) ==> Settled(c, Meanwhile(c, g, after)) && Final(g, Meanwhile(c, g, after))
    ensures Untouched(c, g) ==> Untouched(c, Meanwhile(c, g, after))
  {
    hide Meanwhile, Final;
    if Settled(c, g) { SettledStays(c, g, after); }
    if Untouched(c, g) { MeanwhileKeeps(c, g, after); }
  }

  /**
    What a call left behind stays so: nothing that happens later revives its operation,
    changes what its session wrote, or gives the session another code than the one
    confirmed; only a late denial may still withdraw it.
   */
  lemma {:induction false} SettledStays(c: Call, g: Gateway, events: seq<Ambient>)
    requires Settled(c, g)
    ensures Settled(c, Meanwhile(c, g, events)) && Final(g, Meanwhile(c, g, events))
  {
    hide Ambience, Settled;
    if events != [] {
      SettledStays(c, g, events[..|events| - 1]);
      AmbienceSettled(c, Meanwhile(c, g, events[..|events| - 1]), events[|events| - 1]);
    }
  }

  /** An unconfirmed cleanup is not pessimism: a session may then still be alive. */
  lemma {:induction false} CleanupErrorCanLeaveSession(c: Call, id: Id, guard: Guard.World)
    requires c.deadline > 0
    ensures var g := Gateway(Table(map[], {}, false), 0, guard);
            var (h, r) := PostExchange(c, g, Handled(0, Some(id), [], false, true, true));
            var (k, d) := DeleteExchange(c, h, Handled(0, None, [], true, false, true));
            r.Error? && d.Reply? && d.status == 503 && Live(k.table, c.op)
  {
    var t := Table(map[], {}, false);
    assert Answer(t, PostOf(c, 0, Some(id))).Opened?;
  }
}
