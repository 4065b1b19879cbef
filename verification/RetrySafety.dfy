/** From the gateway's observations to the agent's next attempt: no unsafe automatic retry. */
module RetrySafety {
  import opened Basics
  import Ops = Operations
  import opened HandshakeSpec
  import opened Handshake
  import GuardRuns
  import Sched = SchedulerSpec
  import RetryChains
  import SchedulerExact

  /** What an execution finds besides its session: the engine's result and its own contexts. */
  datatype Findings = Findings(
    argumentsOk: bool, runFailed: bool, runCancelled: bool, exitCode: int, sawSummary: bool, snapshot: bool, warnings: nat,
    progressError: string, timedOut: bool, cancelled: bool)

  datatype Selected = Selected(status: Ops.Status, error: string)

  function HintCode(h: Hint): string {
    match h
    case Unavailable => "GATEWAY_UNAVAILABLE"
    case RateLimited => "GATEWAY_RATE_LIMITED"
  }

  function FailureCode(o: Outcome): string {
    if o.FailedWith? then HintCode(o.hint) else ""
  }

  function Classify(f: Findings, session: Outcome): Selected {
    match f.exitCode
    case 0 => if f.sawSummary then Selected(Ops.Succeeded, "") else Selected(Ops.Failed, "INVALID_ENGINE_OUTPUT")
    case 3 =>
      if f.sawSummary && f.snapshot then Selected(Ops.SucceededWithWarnings, "PARTIAL_READ") else Selected(Ops.Failed, "INVALID_ENGINE_OUTPUT")
    case 130 => Selected(Ops.Canceled, "CANCELED")
    case 11 => Selected(Ops.Failed, "REPOSITORY_LOCKED")
    case 12 => Selected(Ops.Failed, "WRONG_REPOSITORY_PASSWORD")
    case 10 => Selected(Ops.Failed, "REPOSITORY_MISSING")
    case 1 =>
      Selected(Ops.Failed, if !f.sawSummary && !f.snapshot && f.warnings == 0 && FailureCode(session) != "" then FailureCode(session) else "BACKUP_FAILED")
    case _ => Selected(Ops.Failed, "UNKNOWN_EXIT_CODE")
  }

  function Select(f: Findings, session: Outcome, started: bool): Selected {
    if session == CleanupError then Selected(Ops.Failed, "GATEWAY_CLEANUP_UNCONFIRMED")
    else if session == BusyError then Selected(Ops.Failed, "GATEWAY_BUSY")
    else if f.progressError != "" then Selected(Ops.Failed, f.progressError)
    else if f.timedOut then Selected(Ops.Failed, "BACKUP_TIMED_OUT")
    else if f.cancelled || f.runCancelled || session == ContextError then Selected(Ops.Canceled, "CANCELED")
    else if !started && FailureCode(session) != "" then Selected(Ops.Failed, FailureCode(session))
    else if session != Done && !f.runFailed then Selected(Ops.Failed, "GATEWAY_SESSION_FAILED")
    else Classify(f, session)
  }

  // ----- what the result says -----

  /** Nothing but the engine decides: the session and the contexts have nothing against it. */
  predicate EngineDecides(f: Findings, session: Outcome, started: bool) {
    && f.progressError == "" && !f.timedOut && !f.cancelled && !f.runCancelled
    && session !in {CleanupError, BusyError, ContextError}
    && (session == Done || f.runFailed) && (session.FailedWith? ==> started)
  }

  /** The session's failure is the result: before the engine started, or after it exited with 1 and reported nothing. */
  predicate SessionDecides(f: Findings, session: Outcome, started: bool) {
    && f.progressError == "" && !f.timedOut && !f.cancelled && !f.runCancelled && session.FailedWith?
    && (!started || (f.runFailed && f.exitCode == 1 && !f.sawSummary && !f.snapshot && f.warnings == 0))
  }

  predicate StatusTells(r: Selected, f: Findings, session: Outcome, started: bool) {
    && (r.status == Ops.Succeeded <==> EngineDecides(f, session, started) && f.exitCode == 0 && f.sawSummary)
    && (r.status == Ops.SucceededWithWarnings <==> EngineDecides(f, session, started) && f.exitCode == 3 && f.sawSummary && f.snapshot)
    && (r.status == Ops.Canceled <==>
          || (EngineDecides(f, session, started) && f.exitCode == 130)
          || (f.progressError == "" && !f.timedOut && session !in {CleanupError, BusyError} &&
              (f.cancelled || f.runCancelled || session == ContextError)))
    && (r.status in {Ops.Succeeded, Ops.SucceededWithWarnings, Ops.Canceled} || r.status == Ops.Failed)
  }

  predicate GatewayTells(r: Selected, f: Findings, session: Outcome, started: bool) {
    && (r.error == "GATEWAY_CLEANUP_UNCONFIRMED" <==> session == CleanupError)
    && (r.error == "GATEWAY_BUSY" <==> session == BusyError)
    && (r.error == "GATEWAY_UNAVAILABLE" <==> SessionDecides(f, session, started) && session.hint == Unavailable)
    && (r.error == "GATEWAY_RATE_LIMITED" <==> SessionDecides(f, session, started) && session.hint == RateLimited)
  }

  predicate EngineTells(r: Selected, f: Findings, session: Outcome, started: bool) {
    && (r.error == "REPOSITORY_LOCKED" <==> EngineDecides(f, session, started) && f.exitCode == 11)
    && (r.error == "BACKUP_TIMED_OUT" <==> f.timedOut && f.progressError == "" && session !in {CleanupError, BusyError})
  }

  /** Success, cancellation and each retryable code, with exactly the findings that give it. */
  predicate Tells(r: Selected, f: Findings, session: Outcome, started: bool) {
    StatusTells(r, f, session, started) && GatewayTells(r, f, session, started) && EngineTells(r, f, session, started)
  }

  lemma SelectedStatus(f: Findings, session: Outcome, started: bool)
    ensures StatusTells(Select(f, session, started), f, session, started)
  {
  }

  lemma ClassifiedGateway(f: Findings, session: Outcome)
    ensures var e := Classify(f, session).error;
            && e != "GATEWAY_CLEANUP_UNCONFIRMED" && e != "GATEWAY_BUSY"
            && (GatewayCode(e) <==> session.FailedWith? && f.exitCode == 1 && !f.sawSummary && !f.snapshot && f.warnings == 0)
            && (GatewayCode(e) ==> e == HintCode(session.hint))
  {
  }

  lemma SelectedCleanup(f: Findings, session: Outcome, started: bool)
    requires ProgressCode(f.progressError)
    ensures var e := Select(f, session, started).error;
            (e == "GATEWAY_CLEANUP_UNCONFIRMED" <==> session == CleanupError) && (e == "GATEWAY_BUSY" <==> session == BusyError)
  {
    ClassifiedGateway(f, session);
    hide Classify;
  }

  lemma SelectedHint(f: Findings, session: Outcome, started: bool, h: Hint)
    requires ProgressCode(f.progressError)
    ensures Select(f, session, started).error == HintCode(h) <==> SessionDecides(f, session, started) && session.hint == h
  {
    ClassifiedGateway(f, session);
    hide Classify;
  }

  lemma SelectedGateway(f: Findings, session: Outcome, started: bool)
    requires ProgressCode(f.progressError)
    ensures GatewayTells(Select(f, session, started), f, session, started)
  {
    SelectedCleanup(f, session, started);
    SelectedHint(f, session, started, Unavailable);
    SelectedHint(f, session, started, RateLimited);
    hide Select, SessionDecides, EngineDecides;
  }

  lemma SelectedEngine(f: Findings, session: Outcome, started: bool)
    requires ProgressCode(f.progressError)
    ensures EngineTells(Select(f, session, started), f, session, started)
  {
    hide SessionDecides;
  }

  lemma SelectedTells(f: Findings, session: Outcome, started: bool)
    requires ProgressCode(f.progressError)
    ensures Tells(Select(f, session, started), f, session, started)
  {
    SelectedStatus(f, session, started);
    SelectedGateway(f, session, started);
    SelectedEngine(f, session, started);
    hide Select, StatusTells, GatewayTells, EngineTells;
  }

  /** The codes that the progress sink reports on its own account. */
  predicate ProgressCode(code: string) {
    code in {"", "INVALID_ENGINE_OUTPUT", "STATE_STORAGE_UNAVAILABLE"}
  }

  predicate GatewayCode(code: string) {
    code in {"GATEWAY_BUSY", "GATEWAY_UNAVAILABLE", "GATEWAY_RATE_LIMITED"}
  }

  /** The retryable codes that name the gateway are exactly these three. */
  lemma {:induction false} GatewayCodesRetryable(code: string)
    requires NamesGateway(code)
    ensures Ops.RetryableError(code) <==> GatewayCode(code)
  {
    assert "REPOSITORY_LOCKED"[0] == 'R' && "GATEWAY_"[0] == 'G';
    assert code[0] == code[..8][0];
  }

  /** A gateway code after the engine has started comes from the session's own failure. */
  lemma {:induction false} SelectedCode(f: Findings, session: Outcome, started: bool)
    requires ProgressCode(f.progressError) && GatewayCode(Select(f, session, started).error)
    ensures session == BusyError || (session.FailedWith? && HintCode(session.hint) == Select(f, session, started).error)
  {
  }

  /**
    One execution of a backup through its gateway session.  A result that asks for an
    automatic retry because of the gateway means that the engine never started, or that
    the session is closed and reports the retry code itself.
   */
  method Execute(net: Network, turns: seq<Turn>, last: Turn, after: seq<Ambient>, f: Findings)
    returns (r: Selected, started: bool, ghost session: Outcome, ghost worked: bool, ghost confirmed: Gateway)
    requires Untouched(net.call, net.g) && ProgressCode(f.progressError)
    requires Genuine(last.fate) && forall i :: 0 <= i < |turns| ==> Genuine(turns[i].fate)
    modifies net
    ensures r.error != "GATEWAY_CLEANUP_UNCONFIRMED" ==> Settled(net.call, net.g)
    ensures GatewayCode(r.error) ==>
              !started || (ClosedOn(net.call, confirmed) && Final(confirmed, net.g) && Guard.Reached(net.call.hash, confirmed.guard) &&
                           Guard.Code(confirmed.guard.flags).Some? && r.error == HintCode(Guard.Code(confirmed.guard.flags).value))
    ensures r.status == Ops.Succeeded && !f.runFailed ==> ClosedOn(net.call, confirmed)
    ensures Tells(r, f, session, started)
    ensures exists executed :: Faithful(net.call, old(net.g), turns, last, session, executed, worked) && started == (executed && f.argumentsOk)
  {
    hide Faithful, Tells;
    var outcome, executed, done;
    outcome, executed, done, confirmed := WithSession(net, turns, last, after);
    session, worked := outcome, done;
    started := executed && f.argumentsOk;
    r := Select(f, outcome, started);
    SelectedTells(f, outcome, started);
    if GatewayCode(r.error) { SelectedCode(f, session, started); }
  }

  predicate NamesGateway(code: string) {
    8 <= |code| && code[..8] == "GATEWAY_"
  }

  lemma RetriesAs(record: Ops.Record, r: Selected, plan: Ops.Plan, deadline: Ops.Time, rts: map<Ops.Id, Ops.Runtime>, allowed: bool, current: bool, now: Ops.Time, id: Ops.Id)
    ensures Sched.NextAttempt(rts, record.(status := r.status, error := r.error), plan, deadline, allowed, current, now, id).Some? <==>
              SchedulerExact.MayRetry(record, Sched.Worker(plan, deadline, false), rts, Sched.Result(r.status, r.error, allowed, current, now, id))
  {
    SchedulerExact.NextIff(record, Sched.Worker(plan, deadline, false), rts, Sched.Result(r.status, r.error, allowed, current, now, id));
    hide Ops.BackoffOf, Ops.RetryableError;
  }

  /**
    No unsafe automatic retry.  An attempt runs through its session, fails and gets a
    successor; if the failure names the gateway, the engine never started, or its
    session forwarded no snapshot write and had every forwarded mutation confirmed.
   */
  method Attempt(
    net: Network, turns: seq<Turn>, last: Turn, after: seq<Ambient>, f: Findings,
    rts: map<Ops.Id, Ops.Runtime>, record: Ops.Record, plan: Ops.Plan, deadline: Ops.Time, allowed: bool, current: bool, now: Ops.Time, id: Ops.Id)
    returns (r: Selected, started: bool, next: Option<Ops.Record>)
    requires Untouched(net.call, net.g) && ProgressCode(f.progressError)
    requires Genuine(last.fate) && forall i :: 0 <= i < |turns| ==> Genuine(turns[i].fate)
    modifies net
    ensures next.Some? && NamesGateway(r.error) ==> !started || GuardRuns.Repeatable(net.g.guard.history)
    ensures next.Some? <==>
              SchedulerExact.MayRetry(record, Sched.Worker(plan, deadline, false), rts, Sched.Result(r.status, r.error, allowed, current, now, id))
    ensures exists session, worked, executed ::
              && Faithful(net.call, old(net.g), turns, last, session, executed, worked) && started == (executed && f.argumentsOk)
              && Tells(r, f, session, started)
  {
    hide Guard.Reached, Guard.Code, GuardRuns.Repeatable, NamesGateway, GatewayCode, Faithful, Tells;
    ghost var session, worked, confirmed;
    r, started, session, worked, confirmed := Execute(net, turns, last, after, f);
    var done := record.(status := r.status, error := r.error);
    RetryChains.SuccessorDescends(rts, done, plan, deadline, allowed, current, now, id);
    RetriesAs(record, r, plan, deadline, rts, allowed, current, now, id);
    hide SchedulerExact.MayRetry;
    next := Sched.NextAttempt(rts, done, plan, deadline, allowed, current, now, id);
    if next.Some? && NamesGateway(r.error) {
      GatewayCodesRetryable(r.error);
      if started { GuardRuns.RetryCodeIsSafe(net.call.hash, confirmed.guard); }
    }
  }
}
