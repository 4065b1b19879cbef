/** The supervisor's admission of concurrent backups and the routes it publishes for them. */
module SupervisorSpec {
  import opened Basics

  type Id = nat

  datatype Binding = Binding(host: Id, repository: Id, gateway: Id, operation: Id)

  /** `route` is the session that requests may reach. */
  datatype Entry = Entry(binding: Binding, credential: Id, route: Option<Id>)

  datatype State = State(active: map<Id, Entry>, closed: bool)

  predicate Clashes(a: Entry, b: Entry) {
    a.binding.repository == b.binding.repository || a.binding.host == b.binding.host ||
    a.binding.gateway == b.binding.gateway || a.binding.operation == b.binding.operation || a.credential == b.credential
  }

  predicate Busy(s: State, limit: nat, e: Entry) {
    |s.active| >= limit || exists r :: r in s.active && Clashes(s.active[r], e)
  }

  predicate Admits(s: State, limit: nat, e: Entry) {
    !s.closed && !Busy(s, limit, e)
  }

  function Admit(s: State, limit: nat, e: Entry): State {
    if Admits(s, limit, e) then s.(active := s.active[e.binding.repository := e.(route := None)]) else s
  }

  function Release(s: State, e: Entry): State {
    s.(active := s.active - {e.binding.repository})
  }

  /** A route appears only while the supervisor is open and its guard still holds. */
  function Publish(s: State, repository: Id, session: Id, live: bool): State {
    if s.closed || !live || repository !in s.active then s
    else s.(active := s.active[repository := s.active[repository].(route := Some(session))])
  }

  function Unpublish(s: State, repository: Id): State {
    if repository in s.active then s.(active := s.active[repository := s.active[repository].(route := None)]) else s
  }

  datatype Event =
    | Enter(entry: Entry)
    | Leave(entry: Entry)
    | Show(repository: Id, session: Id, live: bool)
    | Hide(repository: Id)
    | Close

  function Advance(s: State, limit: nat, e: Event): State {
    match e
    case Enter(entry) => Admit(s, limit, entry)
    case Leave(entry) => Release(s, entry)
    case Show(r, session, live) => Publish(s, r, session, live)
    case Hide(r) => Unpublish(s, r)
    case Close => s.(closed := true)
  }

  function Run(limit: nat, es: seq<Event>): State {
    if es == [] then State(map[], false) else Advance(Run(limit, es[..|es| - 1]), limit, es[|es| - 1])
  }

  /** Entries number at most the limit and differ pairwise in host, repository, gateway, operation and credential. */
  predicate Inv(s: State, limit: nat) {
    && |s.active| <= limit
    && (forall r :: r in s.active ==> s.active[r].binding.repository == r)
    && (forall r, q :: r in s.active && q in s.active && r != q ==> !Clashes(s.active[r], s.active[q]))
  }

  lemma Sizes(m: map<Id, Entry>, r: Id, e: Entry)
    ensures |m[r := e]| == (if r in m then |m| else |m| + 1) && |m - {r}| <= |m|
  {
    assert m[r := e].Keys == m.Keys + {r} && (m - {r}).Keys == m.Keys - {r};
    assert |m| == |m.Keys| && |m[r := e]| == |m[r := e].Keys| && |m - {r}| == |(m - {r}).Keys|;
  }

  lemma PutInv(s: State, limit: nat, r: Id, e: Entry)
    requires Inv(s, limit) && e.binding.repository == r && (r in s.active || |s.active| < limit)
    requires forall q :: q in s.active && q != r ==> !Clashes(s.active[q], e) && !Clashes(e, s.active[q])
    ensures Inv(s.(active := s.active[r := e]), limit)
  {
    hide Clashes;
    Sizes(s.active, r, e);
  }

  lemma DropInv(s: State, limit: nat, r: Id)
    requires Inv(s, limit)
    ensures Inv(s.(active := s.active - {r}), limit)
  {
    hide Clashes;
    Sizes(s.active, r, Entry(Binding(0, 0, 0, 0), 0, None));
  }

  lemma StepInv(s: State, limit: nat, e: Event)
    requires Inv(s, limit)
    ensures Inv(Advance(s, limit, e), limit)
  {
    match e
    case Enter(entry) => if Admits(s, limit, entry) { PutInv(s, limit, entry.binding.repository, entry.(route := None)); }
    case Leave(entry) => DropInv(s, limit, entry.binding.repository);
    case Show(r, session, live) => if r in s.active { RouteInv(s, limit, r, Some(session)); }
    case Hide(r) => if r in s.active { RouteInv(s, limit, r, None); }
    case Close =>
  }

  lemma RouteInv(s: State, limit: nat, r: Id, route: Option<Id>)
    requires Inv(s, limit) && r in s.active
    ensures Inv(s.(active := s.active[r := s.active[r].(route := route)]), limit)
  {
    var e := s.active[r].(route := route);
    forall q | q in s.active && q != r ensures !Clashes(s.active[q], e) && !Clashes(e, s.active[q]) {
      assert !Clashes(s.active[q], s.active[r]);
    }
    PutInv(s, limit, r, e);
  }

  lemma {:induction false} RunInv(limit: nat, es: seq<Event>)
    ensures Inv(Run(limit, es), limit)
  {
    if es != [] {
      RunInv(limit, es[..|es| - 1]);
      StepInv(Run(limit, es[..|es| - 1]), limit, es[|es| - 1]);
    }
  }

  /** Two backups may not run beside each other if they share any of these. */
  predicate Shares(a: Entry, b: Entry) {
    || a.binding.host == b.binding.host || a.binding.repository == b.binding.repository || a.binding.gateway == b.binding.gateway
    || a.binding.operation == b.binding.operation || a.credential == b.credential
  }

  /** After every run, a backup enters exactly if the supervisor is open, has room, and nothing that is in shares with it; it has no route yet. */
  lemma {:induction false} AdmittedIff(limit: nat, es: seq<Event>, entry: Entry)
    ensures var s := Run(limit, es); var v := Advance(s, limit, Enter(entry)); var r := entry.binding.repository;
            var free := !s.closed && |s.active| < limit && forall q :: q in s.active ==> !Shares(s.active[q], entry);
            && (free ==> r !in s.active && v.active == s.active[r := Entry(entry.binding, entry.credential, None)])
            && (!free ==> v == s)
  {
    RunInv(limit, es);
    hide Run;
    var s, r := Run(limit, es), entry.binding.repository;
    if r in s.active { assert Shares(s.active[r], entry); }
    assert forall q :: q in s.active ==> (Clashes(s.active[q], entry) <==> Shares(s.active[q], entry));
  }

  /** After every run, showing gives a route exactly to a backup that is in, whose guard holds, while the supervisor is open; hiding takes just that away. */
  lemma {:induction false} RoutedIff(limit: nat, es: seq<Event>, repository: Id, session: Id, live: bool)
    ensures var s := Run(limit, es); var shown := Advance(s, limit, Show(repository, session, live)); var hidden := Advance(shown, limit, Hide(repository));
            && (shown != s ==> !s.closed && live && repository in s.active)
            && (!s.closed && live && repository in s.active ==> repository in shown.active && shown.active[repository].route == Some(session))
            && (repository in hidden.active <==> repository in s.active)
            && (repository in hidden.active ==> hidden.active[repository] == s.active[repository].(route := None))
            && (forall q :: q in s.active && q != repository ==> q in hidden.active && hidden.active[q] == s.active[q])
  {
    hide Run;
  }

  /** Once closed, nothing is admitted and no route appears, whatever follows. */
  lemma {:induction false} ClosedOnlyShrinks(limit: nat, es: seq<Event>, n: nat, r: Id)
    requires n <= |es| && Run(limit, es[..n]).closed && r in Run(limit, es).active
    ensures Run(limit, es).closed && r in Run(limit, es[..n]).active
    ensures Run(limit, es).active[r].route.Some? ==> Run(limit, es).active[r] == Run(limit, es[..n]).active[r]
    decreases |es|
  {
    ClosedStays(limit, es, n);
    if n == |es| {
      assert es[..n] == es;
    } else {
      var before := es[..|es| - 1];
      assert before[..n] == es[..n];
      ClosedStays(limit, before, n);
      ClosedOnlyShrinks(limit, before, n, r);
    }
  }

  lemma {:induction false} ClosedStays(limit: nat, es: seq<Event>, n: nat)
    requires n <= |es| && Run(limit, es[..n]).closed
    ensures Run(limit, es).closed
    decreases |es|
  {
    if n == |es| {
      assert es[..n] == es;
    } else {
      assert es[..|es| - 1][..n] == es[..n];
      ClosedStays(limit, es[..|es| - 1], n);
    }
  }
}

module Supervisor {
  import opened Basics
  import opened Spec = SupervisorSpec

  class Router {
    const limit: nat
    var active: map<Id, Entry>
    var closed: bool

    function Abs(): State
      reads this
    {
      State(active, closed)
    }

    constructor (limit: nat)
      ensures this.limit == limit && Abs() == Run(limit, [])
    {
      this.limit, active, closed := limit, map[], false;
    }

    method Enter(e: Entry) returns (ok: bool)
      modifies this
      ensures Abs() == Admit(old(Abs()), limit, e) && ok == Admits(old(Abs()), limit, e)
    {
      if closed { return false; }
      var busy := |active| >= limit;
      var rest := active.Keys;
      while rest != {}
        invariant rest <= active.Keys
        invariant busy <==> |active| >= limit || exists r :: r in active && r !in rest && Clashes(active[r], e)
        decreases |rest|
      {
        var r :| r in rest;
        busy := busy || Clashes(active[r], e);
        rest := rest - {r};
      }
      assert busy <==> Busy(Abs(), limit, e);
      if busy { return false; }
      active := active[e.binding.repository := e.(route := None)];
      return true;
    }

    method Leave(e: Entry)
      modifies this
      ensures Abs() == Release(old(Abs()), e)
    {
      active := active - {e.binding.repository};
    }

    method Show(repository: Id, session: Id, live: bool) returns (ok: bool)
      modifies this
      ensures Abs() == Publish(old(Abs()), repository, session, live)
      ensures ok <==> !old(closed) && live && repository in old(active)
    {
      ok := !closed && live && repository in active;
      if ok { active := active[repository := active[repository].(route := Some(session))]; }
    }

    method Hide(repository: Id)
      modifies this
      ensures Abs() == Unpublish(old(Abs()), repository)
    {
      if repository in active { active := active[repository := active[repository].(route := None)]; }
    }

    method Close()
      modifies this
      ensures Abs() == old(Abs()).(closed := true)
    {
      closed := true;
    }
  }
}
