/** Which mutations one open session forwards, from the requests that it has served. */
module GuardExact {
  import opened Basics
  import opened ObjectPaths
  import opened GuardSpec

  /** An active session has authenticated the request, is within its limits and gives it its turn. */
  predicate Eligible(x: Env) {
    x.active && x.authenticated && !x.limited && x.turn
  }

  /** The body fits its path: an object other than a key, of an allowed size, read in full, named by its hash, and not there yet. */
  predicate Fitting(hash: string -> string, p: ObjectPath, r: Request, x: Env) {
    && p.Object? && p.kind != Keys && 1 <= r.length <= (if p.kind == Locks then MAX_LOCK else MAX_OBJECT)
    && x.bodyRead && hash(r.body) == p.name && x.read == ReadStatus(404)
  }

  /** An eligible POST that fits; a lock must also be new among those reserved so far, and these not too many. */
  predicate Writes(hash: string -> string, reserved: set<ObjectPath>, e: Event) {
    && e.Requested? && Eligible(e.env) && e.request.verb == PostMethod && e.request.path.Some?
    && Fitting(hash, e.request.path.value, e.request, e.env)
    && (IsLock(e.request.path.value) ==> e.request.path.value !in reserved && |reserved| < MAX_LOCKS)
  }

  predicate ReservesLock(hash: string -> string, reserved: set<ObjectPath>, e: Event) {
    Writes(hash, reserved, e) && IsLock(e.request.path.value)
  }

  /** The lock paths that the requests have reserved, whether or not their writes succeeded. */
  function Reserved(hash: string -> string, es: seq<Event>): set<ObjectPath> {
    if es == [] then {}
    else
      var before, e := Reserved(hash, es[..|es| - 1]), es[|es| - 1];
      if ReservesLock(hash, before, e) then before + {e.request.path.value} else before
  }

  /** Request j creates lock p, confirmed with 200 while it was still live. */
  predicate CreatesAt(hash: string -> string, es: seq<Event>, j: int, p: ObjectPath) {
    && 0 <= j < |es| && ReservesLock(hash, Reserved(hash, es[..j]), es[j]) && es[j].request.path == Some(p)
    && es[j].env.send.Sent? && es[j].env.send.code == Some(200) && es[j].env.live
  }

  /** An eligible and audited DELETE of p. */
  predicate Deletes(e: Event, p: ObjectPath) {
    e.Requested? && Eligible(e.env) && e.env.audited && e.request.verb == DeleteMethod && e.request.path == Some(p)
  }

  predicate KeptSince(es: seq<Event>, j: nat, p: ObjectPath) {
    forall k :: j < k < |es| ==> !Deletes(es[k], p)
  }

  /** The session created lock p, and no DELETE of it was accepted since. */
  predicate Owns(hash: string -> string, es: seq<Event>, p: ObjectPath) {
    exists j :: 0 <= j < |es| && CreatesAt(hash, es, j, p) && KeptSince(es, j, p)
  }

  // ----- the lock table is what the requests say -----

  ghost predicate Tracks(w: World, hash: string -> string, es: seq<Event>) {
    !w.closed ==>
      && w.locks.Keys == Reserved(hash, es)
      && forall p :: Owns(hash, es, p) <==> p in w.locks && w.locks[p]
  }

  lemma {:induction false} OwnedIsReserved(hash: string -> string, es: seq<Event>, j: nat, p: ObjectPath)
    requires CreatesAt(hash, es, j, p)
    ensures p in Reserved(hash, es)
    decreases |es|
  {
    hide ReservesLock;
    if j < |es| - 1 {
      assert es[..|es| - 1][..j] == es[..j];
      OwnedIsReserved(hash, es[..|es| - 1], j, p);
    }
  }

  lemma OwnsNext(hash: string -> string, es: seq<Event>, e: Event, p: ObjectPath)
    ensures Owns(hash, es + [e], p) <==> CreatesAt(hash, es + [e], |es|, p) || (Owns(hash, es, p) && !Deletes(e, p))
  {
    var all := es + [e];
    if j: nat :| 0 <= j < |all| && CreatesAt(hash, all, j, p) && KeptSince(all, j, p) {
      if j < |es| { CreatedBefore(hash, es, e, j, p); }
    }
    if j: nat :| 0 <= j < |es| && CreatesAt(hash, es, j, p) && KeptSince(es, j, p) && !Deletes(e, p) {
      CreatedBefore(hash, es, e, j, p);
    }
    hide CreatesAt, Deletes;
    if CreatesAt(hash, all, |es|, p) { assert KeptSince(all, |es|, p); }
  }

  lemma CreatedBefore(hash: string -> string, es: seq<Event>, e: Event, j: nat, p: ObjectPath)
    requires j < |es|
    ensures CreatesAt(hash, es + [e], j, p) <==> CreatesAt(hash, es, j, p)
    ensures KeptSince(es + [e], j, p) <==> KeptSince(es, j, p) && !Deletes(e, p)
  {
    hide Reserved, ReservesLock, Deletes;
    var all := es + [e];
    assert all[..j] == es[..j] && all[|es|] == e;
    assert forall k :: 0 <= k < |es| ==> all[k] == es[k];
  }

  /** What one request does to the lock table. */
  lemma ServeLocks(w: World, hash: string -> string, r: Request, x: Env)
    requires !w.closed
    ensures var e := Requested(r, x); var v := Serve(w, hash, false, r, x);
            v.locks == if ReservesLock(hash, w.locks.Keys, e) then w.locks[r.path.value := x.send.Sent? && x.send.code == Some(200) && x.live]
                       else if r.path.Some? && Deletes(e, r.path.value) && r.path.value in w.locks && w.locks[r.path.value] && IsLock(r.path.value)
                       then w.locks[r.path.value := false]
                       else w.locks
  {
    assert |w.locks| == |w.locks.Keys|;
  }

  lemma TracksStep(w: World, hash: string -> string, es: seq<Event>, e: Event)
    requires Tracks(w, hash, es) && (forall p :: p in w.locks ==> IsLock(p))
    ensures Tracks(Advance(w, hash, false, e), hash, es + [e])
    ensures forall p :: p in Advance(w, hash, false, e).locks ==> IsLock(p)
  {
    var all, v := es + [e], Advance(w, hash, false, e);
    assert all[..|all| - 1] == es && all[..|es|] == es && all[|es|] == e;
    if !w.closed && e.Requested? { ServeLocks(w, hash, e.request, e.env); }
    ServeStaysOpen(w, hash, e);
    hide Serve, Writes;
    if !v.closed {
      forall p ensures Owns(hash, all, p) <==> p in v.locks && v.locks[p] {
        OwnsNext(hash, es, e, p);
        if Owns(hash, es, p) { assert p in w.locks; }
        hide Owns;
      }
    }
  }

  lemma ServeStaysOpen(w: World, hash: string -> string, e: Event)
    ensures Advance(w, hash, false, e).closed <==> w.closed || e.Close?
    ensures w.closed || !e.Requested? ==> Advance(w, hash, false, e).locks == if e.Close? then map[] else w.locks
  {
    hide Fitting, ObserveRead, ApplyMutation;
  }

  lemma {:induction false} RunTracks(base: map<ObjectPath, string>, hash: string -> string, es: seq<Event>)
    ensures Tracks(Run(base, hash, false, es), hash, es)
    ensures forall p :: p in Run(base, hash, false, es).locks ==> IsLock(p)
  {
    hide Advance;
    if es == [] {
      assert forall p :: !Owns(hash, [], p);
    } else {
      var before := es[..|es| - 1];
      RunTracks(base, hash, before);
      TracksStep(Run(base, hash, false, before), hash, before, es[|es| - 1]);
      assert before + [es[|es| - 1]] == es;
    }
  }

  // ----- what is forwarded -----

  /**
    After every run of an open session: a POST is forwarded exactly if it is eligible
    and fits, and for a lock if the path is new; and what is forwarded is its body.
   */
  lemma {:induction false} PostForwardedIff(base: map<ObjectPath, string>, hash: string -> string, es: seq<Event>, r: Request, x: Env)
    requires !Run(base, hash, false, es).closed && r.verb == PostMethod
    ensures var w := Run(base, hash, false, es); var v := Serve(w, hash, false, r, x);
            v.history == if Writes(hash, Reserved(hash, es), Requested(r, x)) && x.send.Sent?
                         then w.history + [Forward(Post(r.path.value, r.body), x.send.code == Some(200))] else w.history
  {
    hide Run, Reserved;
    RunTracks(base, hash, es);
    var w := Run(base, hash, false, es);
    assert |w.locks| == |w.locks.Keys|;
    hide Owns;
  }

  /**
    After every run of an open session: an eligible and audited DELETE is forwarded
    exactly if it names a lock that the session itself created, confirmed while the
    request was live, and that no accepted DELETE has named since.  Any other is denied
    and forbids a retry.
   */
  lemma {:induction false} DeleteForwardedIff(base: map<ObjectPath, string>, hash: string -> string, es: seq<Event>, r: Request, x: Env)
    requires !Run(base, hash, false, es).closed && r.verb == DeleteMethod && Eligible(x) && x.audited && r.path.Some?
    ensures var w := Run(base, hash, false, es); var v := Serve(w, hash, false, r, x); var p := r.path.value;
            if Owns(hash, es, p)
            then v.history == if x.send.Sent? then w.history + [Forward(Delete(p), x.send.code == Some(200))] else w.history
            else v == w.(flags := w.flags.(unsafe := true))
  {
    hide Run, Reserved;
    RunTracks(base, hash, es);
    hide Owns;
  }

  /** Nothing else is ever forwarded: no other method, nothing ineligible, nothing once the session is closed. */
  lemma {:induction false} OthersForwardNothing(w: World, hash: string -> string, readOnly: bool, r: Request, x: Env)
    requires w.closed || readOnly || !Eligible(x) || r.path.None? || (r.verb != PostMethod && r.verb != DeleteMethod) || (r.verb == DeleteMethod && !x.audited)
    ensures Serve(w, hash, readOnly, r, x).history == w.history && Serve(w, hash, readOnly, r, x).backend == w.backend
  {
  }
  // ----- the retry code -----

  /** A request that an open session takes up: active, authenticated and under a path of the session. */
  predicate Admitted(e: Event) {
    e.Requested? && e.env.active && e.env.authenticated && e.request.path.Some?
  }

  predicate Reads(e: Event) {
    Admitted(e) && !e.env.limited && (e.request.verb == GetMethod || (e.request.verb == HeadMethod && !e.request.path.value.Directory?))
  }

  /** A mutation of a kind that backups need: any object but a key, and of these only locks are deleted. */
  predicate Mutates(e: Event) {
    && Admitted(e) && !e.env.limited && e.request.path.value.Object? && e.request.path.value.kind != Keys
    && (e.request.verb == PostMethod || (e.request.verb == DeleteMethod && e.request.path.value.kind == Locks))
  }

  /** A POST that would be forwarded if its probe found nothing. */
  predicate Probes(hash: string -> string, reserved: set<ObjectPath>, e: Event) {
    Mutates(e) && e.env.turn && e.request.verb == PostMethod && Writes(hash, reserved, Requested(e.request, e.env.(read := ReadStatus(404))))
  }

  predicate AsksBackend(hash: string -> string, reserved: set<ObjectPath>, e: Event) {
    Reads(e) || Probes(hash, reserved, e)
  }

  predicate Throttled(hash: string -> string, reserved: set<ObjectPath>, e: Event) {
    (Admitted(e) && e.env.limited) || (AsksBackend(hash, reserved, e) && e.env.read == ReadStatus(429))
  }

  predicate Unreachable(hash: string -> string, reserved: set<ObjectPath>, e: Event) {
    AsksBackend(hash, reserved, e) && (e.env.read == ReadError(true) || (e.env.read.ReadStatus? && e.env.read.code in {500, 502, 503, 504}))
  }

  /** The mutation did not leave, or was confirmed. */
  predicate Certain(f: SendFate) {
    f == Unsent || (f.Sent? && f.code == Some(200))
  }

  /** A read that was answered in full, or did not leave: an empty list must not come from a missing directory. */
  predicate Answered(e: Event)
    requires Reads(e)
  {
    || e.env.read == ReadUnsent
    || (e.env.read.ReadStatus? && e.env.read.code in {200, 206} && (e.request.verb == HeadMethod || e.env.copied))
    || (e.env.read.ReadStatus? && e.env.read.code in {404, 416} && !e.request.path.value.Directory?)
  }

  /** A probe that found nothing, before a write that is no snapshot and is certain; or one that decided nothing. */
  predicate Stored(e: Event)
    requires e.Requested? && e.request.path.Some?
  {
    || e.env.read == ReadUnsent
    || (e.env.read.ReadStatus? && e.env.read.code in {206, 416})
    || (e.env.read == ReadStatus(404) && Certain(e.env.send) && (SnapshotPath(e.request.path.value) ==> e.env.send == Unsent))
  }

  predicate SnapshotPath(p: ObjectPath) {
    p.Object? && p.kind == Snapshots
  }

  /** A lock of the session's own is deleted for certain, or not at all. */
  predicate Removes(hash: string -> string, es: seq<Event>, e: Event) {
    Mutates(e) && e.request.verb == DeleteMethod && Owns(hash, es, e.request.path.value) && (!e.env.audited || Certain(e.env.send))
  }

  /** After these requests of an open session, the event leaves a retry possible. */
  predicate Spares(hash: string -> string, es: seq<Event>, e: Event) {
    || !e.Requested?
    || Throttled(hash, Reserved(hash, es), e) || Unreachable(hash, Reserved(hash, es), e)
    || (Reads(e) && Answered(e))
    || (Mutates(e) && !e.env.turn)
    || (Probes(hash, Reserved(hash, es), e) && Stored(e))
    || Removes(hash, es, e)
  }

  predicate StillOpen(es: seq<Event>) {
    forall i :: 0 <= i < |es| ==> !es[i].Close?
  }

  /** Every event so far left a retry possible, and no request came after the session was closed. */
  predicate AllSpared(hash: string -> string, es: seq<Event>) {
    forall i :: 0 <= i < |es| ==> if StillOpen(es[..i]) then Spares(hash, es[..i], es[i]) else !es[i].Requested?
  }

  predicate SomeThrottled(hash: string -> string, es: seq<Event>) {
    exists i :: 0 <= i < |es| && StillOpen(es[..i]) && Throttled(hash, Reserved(hash, es[..i]), es[i])
  }

  predicate SomeUnreachable(hash: string -> string, es: seq<Event>) {
    exists i :: 0 <= i < |es| && StillOpen(es[..i]) && Unreachable(hash, Reserved(hash, es[..i]), es[i])
  }

  /** What one request of an open session does to the flags. */
  lemma ReadFlags(w: World, hash: string -> string, es: seq<Event>, r: Request, x: Env)
    requires Tracks(w, hash, es) && !w.closed && (Reads(Requested(r, x)) || !Mutates(Requested(r, x)))
    ensures FlagsFollow(w.flags, Serve(w, hash, false, r, x).flags, hash, es, Requested(r, x))
  {
    hide Reserved, Owns, Tracks, Writes;
  }

  /** A POST that takes its turn is denied unless it probes. */
  lemma CreateFlags(w: World, hash: string -> string, r: Request, x: Env)
    requires Mutates(Requested(r, x)) && r.verb == PostMethod && x.turn
    ensures var p := r.path.value; var f := ObserveRead(w.flags, x.read);
            Create(w, hash, p, r, x).flags ==
              if !Probes(hash, w.locks.Keys, Requested(r, x)) then w.flags.(unsafe := true)
              else if x.read == ReadStatus(200) then f.(unsafe := true)
              else if x.read != ReadStatus(404) then f
              else f.(unsafe := f.unsafe || !Certain(x.send) || (SnapshotPath(p) && x.send != Unsent))
  {
    assert |w.locks| == |w.locks.Keys|;
    hide ObserveRead, ApplyMutation;
  }

  lemma PostFlags(w: World, hash: string -> string, es: seq<Event>, r: Request, x: Env)
    requires Tracks(w, hash, es) && !w.closed && Mutates(Requested(r, x)) && r.verb == PostMethod
    ensures FlagsFollow(w.flags, Serve(w, hash, false, r, x).flags, hash, es, Requested(r, x))
  {
    hide Reserved, Owns;
    if x.turn { CreateFlags(w, hash, r, x); }
    hide Create, Writes, Probes, Certain, SnapshotPath;
  }

  lemma DeleteFlags(w: World, hash: string -> string, es: seq<Event>, r: Request, x: Env)
    requires Tracks(w, hash, es) && !w.closed && Mutates(Requested(r, x)) && r.verb == DeleteMethod
    ensures FlagsFollow(w.flags, Serve(w, hash, false, r, x).flags, hash, es, Requested(r, x))
  {
    hide Reserved, Owns, ApplyMutation, Writes;
  }

  predicate FlagsFollow(f: Flags, g: Flags, hash: string -> string, es: seq<Event>, e: Event) {
    && (g.unsafe <==> f.unsafe || !Spares(hash, es, e))
    && (!g.unsafe ==>
          && (g.rateLimited <==> f.rateLimited || Throttled(hash, Reserved(hash, es), e))
          && (g.unavailable <==> f.unavailable || Unreachable(hash, Reserved(hash, es), e)))
  }

  lemma EventFlags(w: World, hash: string -> string, es: seq<Event>, e: Event)
    requires Tracks(w, hash, es) && !w.closed
    ensures FlagsFollow(w.flags, Advance(w, hash, false, e).flags, hash, es, e)
  {
    if e.Requested? {
      var r, x := e.request, e.env;
      if Mutates(e) && r.verb == PostMethod { PostFlags(w, hash, es, r, x); }
      else if Mutates(e) { DeleteFlags(w, hash, es, r, x); }
      else { ReadFlags(w, hash, es, r, x); }
      hide Serve, FlagsFollow, Tracks;
    } else {
      hide Serve, Reserved, Owns;
    }
  }

  lemma ClosedFlags(w: World, hash: string -> string, e: Event)
    requires w.closed
    ensures Advance(w, hash, false, e).flags == if e.Requested? then w.flags.(unsafe := true) else w.flags
  {
  }

  /** The flags are those that the requests call for. */
  predicate FlagsTell(f: Flags, hash: string -> string, es: seq<Event>) {
    && (f.unsafe <==> !AllSpared(hash, es))
    && (!f.unsafe ==> (f.rateLimited <==> SomeThrottled(hash, es)) && (f.unavailable <==> SomeUnreachable(hash, es)))
  }

  lemma TellsNext(f: Flags, g: Flags, hash: string -> string, es: seq<Event>, e: Event)
    requires FlagsTell(f, hash, es)
    requires if StillOpen(es) then FlagsFollow(f, g, hash, es, e) else g == if e.Requested? then f.(unsafe := true) else f
    ensures FlagsTell(g, hash, es + [e])
  {
    hide Spares, Throttled, Unreachable, StillOpen, Reserved;
    var all := es + [e];
    assert all[..|es|] == es && all[|es|] == e;
    assert forall i :: 0 <= i < |es| ==> all[..i] == es[..i] && all[i] == es[i];
    assert AllSpared(hash, all) <==> AllSpared(hash, es) && if StillOpen(es) then Spares(hash, es, e) else !e.Requested?;
    assert SomeThrottled(hash, all) <==> SomeThrottled(hash, es) || (StillOpen(es) && Throttled(hash, Reserved(hash, es), e));
    assert SomeUnreachable(hash, all) <==> SomeUnreachable(hash, es) || (StillOpen(es) && Unreachable(hash, Reserved(hash, es), e));
    hide AllSpared, SomeThrottled, SomeUnreachable;
  }

  lemma {:induction false} FlagsAfter(base: map<ObjectPath, string>, hash: string -> string, es: seq<Event>)
    ensures var w := Run(base, hash, false, es); FlagsTell(w.flags, hash, es) && (w.closed <==> !StillOpen(es))
  {
    if es != [] {
      var before, e := es[..|es| - 1], es[|es| - 1];
      var w := Run(base, hash, false, before);
      FlagsAfter(base, hash, before);
      RunTracks(base, hash, before);
      if w.closed { ClosedFlags(w, hash, e); } else { EventFlags(w, hash, before, e); }
      ServeStaysOpen(w, hash, e);
      hide Advance, FlagsTell, FlagsFollow, Tracks;
      assert before + [e] == es;
      TellsNext(w.flags, Advance(w, hash, false, e).flags, hash, before, e);
    }
  }

  /**
    Over every run, a session gives a retry code exactly if every request left a retry
    possible: the rate limit if one was throttled, by its own limits or by the backend,
    and otherwise unavailability if the backend could not be reached.
   */
  lemma {:induction false} CodeIff(base: map<ObjectPath, string>, hash: string -> string, es: seq<Event>)
    ensures Code(Run(base, hash, false, es).flags) ==
              if !AllSpared(hash, es) then None
              else if SomeThrottled(hash, es) then Some(RateLimited)
              else if SomeUnreachable(hash, es) then Some(Hint.Unavailable)
              else None
  {
    FlagsAfter(base, hash, es);
    hide Run, AllSpared, SomeThrottled, SomeUnreachable;
  }
}
