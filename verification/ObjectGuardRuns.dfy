/** What every sequence of requests to one session leaves true. */
module GuardRuns {
  import opened Basics
  import opened ObjectPaths
  import opened GuardSpec

  ghost predicate Injective(hash: string -> string) {
    forall a, b :: hash(a) == hash(b) ==> a == b
  }

  predicate PostAt(h: seq<Forward>, i: int, p: ObjectPath) {
    0 <= i < |h| && h[i].m.Post? && h[i].m.path == p
  }

  predicate DeleteAt(h: seq<Forward>, i: int, p: ObjectPath) {
    0 <= i < |h| && h[i].m == Delete(p)
  }

  predicate Posted(h: seq<Forward>, p: ObjectPath) {
    exists i :: 0 <= i < |h| && PostAt(h, i, p)
  }

  predicate Deleted(h: seq<Forward>, p: ObjectPath) {
    exists i :: 0 <= i < |h| && DeleteAt(h, i, p)
  }

  /** A confirmed creation of p lies before position n. */
  predicate CreatedBefore(h: seq<Forward>, n: int, p: ObjectPath) {
    exists i :: 0 <= i < n && PostAt(h, i, p) && h[i].confirmed
  }

  /** Every mutation that left the gateway: a new object named by its hash, or the removal of an own lock. */
  predicate Allowed(base: map<ObjectPath, string>, hash: string -> string, m: Mutation) {
    match m
    case Post(p, body) => p.Object? && p.kind != Keys && p.name == hash(body) && p !in base
    case Delete(p) => IsLock(p) && p !in base
  }

  predicate HistoryInv(base: map<ObjectPath, string>, hash: string -> string, h: seq<Forward>) {
    && (forall i :: 0 <= i < |h| ==> Allowed(base, hash, h[i].m))
    && (forall i :: 0 <= i < |h| && h[i].m.Delete? ==> CreatedBefore(h, i, h[i].m.path))
  }

  /** Each lock path is written at most once and removed at most once. */
  ghost predicate Once(h: seq<Forward>) {
    && (forall i, j, p :: IsLock(p) && PostAt(h, i, p) && PostAt(h, j, p) ==> i == j)
    && (forall i, j, p :: DeleteAt(h, i, p) && DeleteAt(h, j, p) ==> i == j)
  }

  predicate LockInv(w: World) {
    && |w.locks| <= MAX_LOCKS
    && (forall p :: p in w.locks && w.locks[p] ==> CreatedBefore(w.history, |w.history|, p) && !Deleted(w.history, p) && IsLock(p))
    && (!w.closed ==> forall i :: 0 <= i < |w.history| && IsLock(w.history[i].m.path) ==> w.history[i].m.path in w.locks)
    && (w.closed ==> w.locks == map[] && |LockPaths(w.history)| <= MAX_LOCKS)
  }

  /** The lock paths that ever reached the backend. */
  function LockPaths(h: seq<Forward>): set<ObjectPath> {
    set i | 0 <= i < |h| && IsLock(h[i].m.path) :: h[i].m.path
  }

  lemma Subset(a: set<ObjectPath>, b: set<ObjectPath>)
    requires a <= b
    ensures |a| <= |b|
  {
    assert |b| == |a| + |b - a| by { assert b == a + (b - a); }
  }

  lemma LockPathsBounded(w: World)
    requires LockInv(w)
    ensures |LockPaths(w.history)| <= MAX_LOCKS
  {
    if !w.closed {
      assert LockPaths(w.history) <= w.locks.Keys;
      Subset(LockPaths(w.history), w.locks.Keys);
      assert |w.locks| == |w.locks.Keys|;
    }
  }

  /** What the session started with is untouched; everything else is named by its hash. */
  predicate BackendInv(base: map<ObjectPath, string>, hash: string -> string, w: World) {
    && (forall p :: p in base ==> p in w.backend && w.backend[p] == base[p])
    && (forall p :: p in w.backend && p !in base ==> p.Object? && p.kind != Keys && p.name == hash(w.backend[p]))
    && (forall m :: m in w.late ==> Allowed(base, hash, m))
  }

  /** A session that may still be retried has written no snapshot and has had every write confirmed. */
  predicate RetryInv(w: World) {
    !w.flags.unsafe ==> forall i :: 0 <= i < |w.history| ==> w.history[i].confirmed && !SnapshotWrite(w.history[i].m)
  }

  ghost predicate Inv(base: map<ObjectPath, string>, hash: string -> string, w: World) {
    HistoryInv(base, hash, w.history) && Once(w.history) && LockInv(w) && BackendInv(base, hash, w) && RetryInv(w)
  }

  lemma ExtendHistory(base: map<ObjectPath, string>, hash: string -> string, h: seq<Forward>, f: Forward)
    requires HistoryInv(base, hash, h) && Allowed(base, hash, f.m)
    requires f.m.Delete? ==> CreatedBefore(h, |h|, f.m.path)
    ensures HistoryInv(base, hash, h + [f])
  {
    hide Allowed;
    var k := h + [f];
    forall i | 0 <= i < |k| && k[i].m.Delete? ensures CreatedBefore(k, i, k[i].m.path) {
      var p := k[i].m.path;
      var n := if i < |h| then i else |h|;
      var j :| 0 <= j < n && PostAt(h, j, p) && h[j].confirmed;
      assert PostAt(k, j, p) && k[j].confirmed;
    }
  }

  lemma ExtendOnce(h: seq<Forward>, f: Forward)
    requires Once(h)
    requires f.m.Post? && IsLock(f.m.path) ==> !Posted(h, f.m.path)
    requires f.m.Delete? ==> !Deleted(h, f.m.path)
    ensures Once(h + [f])
  {
    var k := h + [f];
    assert forall i, p :: PostAt(k, i, p) && i < |h| ==> PostAt(h, i, p);
    assert forall i, p :: DeleteAt(k, i, p) && i < |h| ==> DeleteAt(h, i, p);
  }

  lemma CreatedStays(h: seq<Forward>, f: Forward, p: ObjectPath)
    requires CreatedBefore(h, |h|, p)
    ensures CreatedBefore(h + [f], |h| + 1, p)
  {
    var i :| 0 <= i < |h| && PostAt(h, i, p) && h[i].confirmed;
    assert PostAt(h + [f], i, p);
  }

  lemma DeletedLast(h: seq<Forward>, f: Forward, p: ObjectPath)
    requires !Deleted(h, p) && f.m != Delete(p)
    ensures !Deleted(h + [f], p)
  {
    var k := h + [f];
    forall i | 0 <= i < |k| ensures !DeleteAt(k, i, p) {
      assert i < |h| ==> !DeleteAt(h, i, p);
    }
  }

  /** A mutation that is allowed leaves the base alone and keeps names equal to hashes. */
  lemma ApplyKeeps(base: map<ObjectPath, string>, hash: string -> string, w: World, m: Mutation, late: set<Mutation>)
    requires BackendInv(base, hash, w) && Allowed(base, hash, m) && late <= w.late + {m}
    ensures BackendInv(base, hash, w.(backend := ApplyMutation(w.backend, m), late := late))
    ensures BackendInv(base, hash, w.(late := late))
  {
  }

  /** Sizes of a lock table that gains or updates one entry. */
  lemma LockSize(m: map<ObjectPath, bool>, p: ObjectPath, b: bool)
    ensures |m[p := b]| == if p in m then |m| else |m| + 1
  {
    assert m[p := b].Keys == m.Keys + {p};
    assert |m| == |m.Keys| && |m[p := b]| == |m[p := b].Keys|;
  }

  // ----- sending -----

  lemma SendHistory(base: map<ObjectPath, string>, hash: string -> string, w: World, m: Mutation, f: SendFate)
    requires HistoryInv(base, hash, w.history) && Once(w.history) && Allowed(base, hash, m)
    requires m.Post? && IsLock(m.path) ==> !Posted(w.history, m.path)
    requires m.Delete? ==> CreatedBefore(w.history, |w.history|, m.path) && !Deleted(w.history, m.path)
    ensures HistoryInv(base, hash, Send(w, m, f).history) && Once(Send(w, m, f).history)
  {
    hide HistoryInv, Once, Allowed, ApplyMutation;
    if f.Sent? {
      var x := Forward(m, f.code == Some(200));
      ExtendHistory(base, hash, w.history, x);
      ExtendOnce(w.history, x);
    }
  }

  lemma SendBackend(base: map<ObjectPath, string>, hash: string -> string, w: World, m: Mutation, f: SendFate)
    requires BackendInv(base, hash, w) && RetryInv(w) && Allowed(base, hash, m)
    ensures BackendInv(base, hash, Send(w, m, f)) && RetryInv(Send(w, m, f))
  {
    ApplyKeeps(base, hash, w, m, w.late);
    ApplyKeeps(base, hash, w, m, w.late + {m});
    hide Allowed, ApplyMutation;
  }

  /** Locks after a mutation was sent and perhaps, for a creation, confirmed as owned. */
  lemma SendLocks(w: World, m: Mutation, f: SendFate, own: bool)
    requires LockInv(w) && !w.closed
    requires IsLock(m.path) ==> m.path in w.locks && !w.locks[m.path]
    requires own ==> m.Post? && IsLock(m.path) && f.Sent? && f.code == Some(200) && !Deleted(w.history, m.path)
    ensures var v := Send(w, m, f); LockInv(if own then v.(locks := v.locks[m.path := true]) else v)
  {
    var v := Send(w, m, f);
    var u := if own then v.(locks := v.locks[m.path := true]) else v;
    if own { LockSize(v.locks, m.path, true); }
    if f.Sent? {
      var x := Forward(m, f.code == Some(200));
      assert v.history == w.history + [x];
      forall p | p in u.locks && u.locks[p] ensures CreatedBefore(u.history, |u.history|, p) && !Deleted(u.history, p) && IsLock(p) {
        if own && p == m.path {
          assert PostAt(u.history, |w.history|, p);
        } else {
          CreatedStays(w.history, x, p);
        }
        DeletedLast(w.history, x, p);
      }
    }
  }

  lemma Reserve(w: World, p: ObjectPath)
    requires LockInv(w) && !w.closed && IsLock(p) && (p in w.locks || |w.locks| < MAX_LOCKS)
    ensures LockInv(w.(locks := w.locks[p := false]))
  {
    LockSize(w.locks, p, false);
  }

  /** A lock path that is not in the table has never been written or removed. */
  lemma FreshLock(w: World, p: ObjectPath)
    requires LockInv(w) && !w.closed && IsLock(p) && p !in w.locks
    ensures !Posted(w.history, p) && !Deleted(w.history, p)
  {
    forall i | 0 <= i < |w.history| ensures !PostAt(w.history, i, p) && !DeleteAt(w.history, i, p) {
      assert IsLock(w.history[i].m.path) ==> w.history[i].m.path in w.locks;
    }
  }

  /** Flags alone do not matter to anything but retries, and they only rise. */
  lemma FlagsRise(base: map<ObjectPath, string>, hash: string -> string, w: World, f: Flags)
    requires Inv(base, hash, w) && (w.flags.unsafe ==> f.unsafe)
    ensures Inv(base, hash, w.(flags := f))
  {
    hide HistoryInv, Once, Allowed, CreatedBefore, Deleted;
  }

  // ----- each request -----

  lemma CreateInv(base: map<ObjectPath, string>, hash: string -> string, w: World, p: ObjectPath, r: Request, e: Env)
    requires Inv(base, hash, w) && !w.closed && Creates(w, hash, p, r, e) && p.kind != Keys
    requires TruthfulRead(w, p, e.read)
    ensures Inv(base, hash, Create(w, hash, p, r, e))
  {
    var m := Post(p, r.body);
    assert Allowed(base, hash, m) by { assert p !in base; }
    var probed := w.(flags := ObserveRead(w.flags, e.read));
    FlagsRise(base, hash, w, probed.flags);
    var reserved := if IsLock(p) then probed.(locks := probed.locks[p := false]) else probed;
    if IsLock(p) { FreshLock(w, p); Reserve(probed, p); }
    hide HistoryInv, Once, Allowed, LockInv, ApplyMutation, CreatedBefore;
    SendHistory(base, hash, reserved, m, e.send);
    SendBackend(base, hash, reserved, m, e.send);
    var own := IsLock(p) && e.send.Sent? && e.send.code == Some(200) && e.live;
    SendLocks(reserved, m, e.send, own);
    KeepOthers(base, hash, Send(reserved, m, e.send), p);
  }

  /** The lock table plays no part in the other invariants. */
  lemma KeepOthers(base: map<ObjectPath, string>, hash: string -> string, w: World, p: ObjectPath)
    requires BackendInv(base, hash, w) && RetryInv(w)
    ensures BackendInv(base, hash, w.(locks := w.locks[p := true])) && RetryInv(w.(locks := w.locks[p := true]))
  {
  }

  lemma RemoveInv(base: map<ObjectPath, string>, hash: string -> string, w: World, p: ObjectPath, e: Env)
    requires Inv(base, hash, w) && !w.closed && p in w.locks && w.locks[p]
    ensures Inv(base, hash, Send(w.(locks := w.locks[p := false]), Delete(p), e.send))
  {
    var m := Delete(p);
    var i :| 0 <= i < |w.history| && PostAt(w.history, i, p) && w.history[i].confirmed;
    assert Allowed(base, hash, w.history[i].m) && Allowed(base, hash, m);
    var v := w.(locks := w.locks[p := false]);
    Reserve(w, p);
    hide HistoryInv, Once, Allowed, ApplyMutation, CreatedBefore;
    SendHistory(base, hash, v, m, e.send);
    SendBackend(base, hash, v, m, e.send);
    SendLocks(v, m, e.send, false);
  }

  predicate OnlyFlags(w: World, v: World) {
    v == w.(flags := v.flags) && (w.flags.unsafe ==> v.flags.unsafe)
  }

  predicate CreatesBy(w: World, hash: string -> string, r: Request, e: Env) {
    !w.closed && r.path.Some? && Creates(w, hash, r.path.value, r, e) && r.path.value.kind != Keys
  }

  predicate RemovesBy(w: World, r: Request) {
    !w.closed && r.path.Some? && r.path.value in w.locks && w.locks[r.path.value]
  }

  /** A request marks flags, or creates one object, or removes one own lock. */
  lemma ServeShape(w: World, hash: string -> string, readOnly: bool, r: Request, e: Env)
    ensures var v := Serve(w, hash, readOnly, r, e);
            || OnlyFlags(w, v)
            || (CreatesBy(w, hash, r, e) && v == Create(w, hash, r.path.value, r, e))
            || (RemovesBy(w, r) && v == Send(w.(locks := w.locks[r.path.value := false]), Delete(r.path.value), e.send))
  {
    hide Send;
  }

  lemma ServeInv(base: map<ObjectPath, string>, hash: string -> string, w: World, readOnly: bool, r: Request, e: Env)
    requires Inv(base, hash, w) && Possible(w, Requested(r, e))
    ensures Inv(base, hash, Serve(w, hash, readOnly, r, e))
  {
    hide Inv, Send, Serve, Create, Creates;
    var v := Serve(w, hash, readOnly, r, e);
    ServeShape(w, hash, readOnly, r, e);
    if OnlyFlags(w, v) {
      FlagsRise(base, hash, w, v.flags);
    } else if CreatesBy(w, hash, r, e) && v == Create(w, hash, r.path.value, r, e) {
      CreateInv(base, hash, w, r.path.value, r, e);
    } else {
      RemoveInv(base, hash, w, r.path.value, e);
    }
  }

  lemma ArriveInv(base: map<ObjectPath, string>, hash: string -> string, w: World, m: Mutation)
    requires Inv(base, hash, w) && m in w.late
    ensures Inv(base, hash, w.(backend := ApplyMutation(w.backend, m), late := w.late - {m}))
  {
    ApplyKeeps(base, hash, w, m, w.late - {m});
    hide HistoryInv, Once, Allowed, ApplyMutation, BackendInv, CreatedBefore, Deleted;
  }

  lemma CloseInv(base: map<ObjectPath, string>, hash: string -> string, w: World)
    requires Inv(base, hash, w)
    ensures Inv(base, hash, w.(closed := true, locks := map[]))
  {
    LockPathsBounded(w);
    hide HistoryInv, Once, Allowed, CreatedBefore, Deleted, LockPaths;
  }

  lemma StepInv(base: map<ObjectPath, string>, hash: string -> string, w: World, readOnly: bool, e: Event)
    requires Inv(base, hash, w) && Possible(w, e)
    ensures Inv(base, hash, Advance(w, hash, readOnly, e))
  {
    hide Inv, Serve, ApplyMutation;
    match e
    case Requested(r, x) => ServeInv(base, hash, w, readOnly, r, x);
    case Arrives(m) => ArriveInv(base, hash, w, m);
    case Close => CloseInv(base, hash, w);
  }

  lemma {:induction false} RunInv(base: map<ObjectPath, string>, hash: string -> string, readOnly: bool, es: seq<Event>)
    requires PossibleRun(base, hash, readOnly, es)
    ensures Inv(base, hash, Run(base, hash, readOnly, es))
  {
    if es != [] {
      RunInv(base, hash, readOnly, es[..|es| - 1]);
      StepInv(base, hash, Run(base, hash, readOnly, es[..|es| - 1]), readOnly, es[|es| - 1]);
    }
  }

  // ----- the session's promises -----

  /** An object that is not a lock keeps its content under every mutation the guard lets through. */
  lemma MutationKeeps(base: map<ObjectPath, string>, hash: string -> string, w: World, m: Mutation, p: ObjectPath)
    requires Injective(hash) && BackendInv(base, hash, w) && Allowed(base, hash, m) && p in w.backend && !IsLock(p)
    ensures p in ApplyMutation(w.backend, m) && ApplyMutation(w.backend, m)[p] == w.backend[p]
  {
  }

  lemma SendMutates(w: World, m: Mutation, f: SendFate)
    ensures Send(w, m, f).backend == w.backend || Send(w, m, f).backend == ApplyMutation(w.backend, m)
  {
  }

  /** Every request changes the backend by at most one allowed mutation. */
  lemma ServeMutates(base: map<ObjectPath, string>, hash: string -> string, w: World, readOnly: bool, r: Request, e: Env) returns (m: Mutation)
    requires Inv(base, hash, w) && Possible(w, Requested(r, e))
    ensures var b := Serve(w, hash, readOnly, r, e).backend;
            b == w.backend || (b == ApplyMutation(w.backend, m) && Allowed(base, hash, m))
  {
    var v := Serve(w, hash, readOnly, r, e);
    ServeShape(w, hash, readOnly, r, e);
    m := Delete(Config);
    if OnlyFlags(w, v) {
    } else if CreatesBy(w, hash, r, e) && v == Create(w, hash, r.path.value, r, e) {
      var p := r.path.value;
      m := Post(p, r.body);
      assert Allowed(base, hash, m);
      var probed := w.(flags := ObserveRead(w.flags, e.read));
      SendMutates(if IsLock(p) then probed.(locks := probed.locks[p := false]) else probed, m, e.send);
      hide Inv, Send, Serve, Allowed, ApplyMutation;
    } else {
      var p := r.path.value;
      var i :| 0 <= i < |w.history| && PostAt(w.history, i, p) && w.history[i].confirmed;
      m := Delete(p);
      assert Allowed(base, hash, w.history[i].m) && Allowed(base, hash, m);
      SendMutates(w.(locks := w.locks[p := false]), m, e.send);
      hide Inv, Send, Serve, Allowed, ApplyMutation;
    }
  }

  lemma StepKeeps(base: map<ObjectPath, string>, hash: string -> string, w: World, readOnly: bool, e: Event, p: ObjectPath)
    requires Injective(hash) && Inv(base, hash, w) && Possible(w, e) && p in w.backend && !IsLock(p)
    ensures p in Advance(w, hash, readOnly, e).backend && Advance(w, hash, readOnly, e).backend[p] == w.backend[p]
  {
    hide Serve, Allowed, ApplyMutation, HistoryInv, Once, LockInv, RetryInv, Injective;
    match e
    case Requested(r, x) =>
      var m := ServeMutates(base, hash, w, readOnly, r, x);
      if Allowed(base, hash, m) { MutationKeeps(base, hash, w, m, p); }
    case Arrives(m) => MutationKeeps(base, hash, w, m, p);
    case Close =>
  }

  /**
    Append-only over a whole session: an object other than a lock, once there, is
    there with the same content after any further requests, late writes and closing.
   */
  lemma {:induction false} AppendOnly(base: map<ObjectPath, string>, hash: string -> string, readOnly: bool, es: seq<Event>, n: nat, p: ObjectPath)
    requires Injective(hash) && PossibleRun(base, hash, readOnly, es) && n <= |es|
    requires p in Run(base, hash, readOnly, es[..n]).backend && !IsLock(p)
    ensures p in Run(base, hash, readOnly, es).backend
    ensures Run(base, hash, readOnly, es).backend[p] == Run(base, hash, readOnly, es[..n]).backend[p]
    decreases |es|
  {
    if n == |es| {
      assert es[..n] == es;
    } else {
      var before, e := es[..|es| - 1], es[|es| - 1];
      assert before[..n] == es[..n];
      AppendOnly(base, hash, readOnly, before, n, p);
      RunInv(base, hash, readOnly, before);
      var w := Run(base, hash, readOnly, before);
      hide Advance, Inv, Possible;
      StepKeeps(base, hash, w, readOnly, e, p);
    }
  }

  /** Everything the session found is still as it was, and everything it added is named by the hash of its body. */
  lemma {:induction false} AddedAreNamed(base: map<ObjectPath, string>, hash: string -> string, readOnly: bool, es: seq<Event>, p: ObjectPath)
    requires PossibleRun(base, hash, readOnly, es) && p in Run(base, hash, readOnly, es).backend
    ensures if p in base then Run(base, hash, readOnly, es).backend[p] == base[p]
            else p.Object? && p.kind != Keys && p.name == hash(Run(base, hash, readOnly, es).backend[p])
  {
    RunInv(base, hash, readOnly, es);
    hide Run;
  }

  /** Locks: at most 1024 ever, each written once at most, removed once at most and only after its confirmed creation. */
  lemma {:induction false} LocksAreOwn(base: map<ObjectPath, string>, hash: string -> string, readOnly: bool, es: seq<Event>)
    requires PossibleRun(base, hash, readOnly, es)
    ensures var h := Run(base, hash, readOnly, es).history;
            && |LockPaths(h)| <= MAX_LOCKS && Once(h)
            && (forall i :: 0 <= i < |h| && h[i].m.Delete? ==> IsLock(h[i].m.path) && h[i].m.path !in base && CreatedBefore(h, i, h[i].m.path))
  {
    RunInv(base, hash, readOnly, es);
    LockPathsBounded(Run(base, hash, readOnly, es));
    hide Run, Once, CreatedBefore, LockPaths;
  }

  /** Every mutation was confirmed and none wrote a snapshot. */
  predicate Repeatable(h: seq<Forward>) {
    forall i :: 0 <= i < |h| ==> h[i].confirmed && !SnapshotWrite(h[i].m)
  }

  /** A session that reports a retry code wrote no snapshot, and the backend confirmed every write it forwarded. */
  lemma {:induction false} RetryCodeIsSafe(hash: string -> string, w: World)
    requires Reached(hash, w) && Code(w.flags).Some?
    ensures Repeatable(w.history)
  {
    var base, es :| PossibleRun(base, hash, false, es) && w == Run(base, hash, false, es);
    RunInv(base, hash, false, es);
    hide Run, HistoryInv, Once, LockInv, BackendInv;
  }
}

module ObjectGuard {
  import opened Basics
  import opened ObjectPaths
  import opened Spec = GuardSpec

  /** The session object; `backend`, `late` and `history` stand for the other end of its transport. */
  class BackupSession {
    const hash: string -> string
    const readOnly: bool
    var locks: map<ObjectPath, bool>
    var flags: Flags
    var closed: bool
    var backend: map<ObjectPath, string>
    var late: set<Mutation>
    var history: seq<Forward>

    function Abs(): World
      reads this
    {
      World(locks, flags, closed, backend, late, history)
    }

    constructor (hash: string -> string, readOnly: bool, base: map<ObjectPath, string>)
      ensures this.hash == hash && this.readOnly == readOnly && Abs() == Start(base)
    {
      this.hash, this.readOnly := hash, readOnly;
      locks, flags, closed, backend, late, history := map[], Flags(false, false, false), false, base, {}, [];
    }

    method Deny(limited: bool)
      modifies this`flags
      ensures Abs() == Spec.Deny(old(Abs()), limited)
    {
      if limited { flags := flags.(rateLimited := true); } else { flags := flags.(unsafe := true); }
    }

    /** A read request to the backend: its outcome only marks the retry flags. */
    method Ask(f: ReadFate)
      modifies this`flags
      ensures Abs() == old(Abs()).(flags := ObserveRead(old(flags), f))
    {
      match f
      case ReadGuarded => flags := flags.(unsafe := true);
      case ReadUnsent =>
      case ReadError(soft) => if soft { flags := flags.(unavailable := true); } else { flags := flags.(unsafe := true); }
      case ReadStatus(code) =>
        if code == 200 || code == 206 || code == 404 || code == 416 { return; }
        if code == 429 {
          flags := flags.(rateLimited := true);
        } else if code == 500 || code == 502 || code == 503 || code == 504 {
          flags := flags.(unavailable := true);
        } else {
          flags := flags.(unsafe := true);
        }
    }

    method Forward(m: Mutation, f: SendFate)
      modifies this`flags, this`backend, this`late, this`history
      ensures Abs() == Send(old(Abs()), m, f)
    {
      if f == SendGuarded {
        flags := flags.(unsafe := true);
      } else if f.Sent? {
        if SnapshotWrite(m) { flags := flags.(unsafe := true); }
        match f.effect {
          case Now => backend := ApplyMutation(backend, m);
          case Later => late := late + {m};
          case Never =>
        }
        history := history + [Spec.Forward(m, f.code == Some(200))];
        if f.code != Some(200) { flags := flags.(unsafe := true); }
      }
    }

    method Read(p: ObjectPath, head: bool, e: Env)
      modifies this`flags
      ensures Abs() == Spec.Read(old(Abs()), p, head, e)
    {
      Ask(e.read);
      if !e.read.ReadStatus? { return; }
      if e.read.code != 200 && e.read.code != 206 {
        if p.Directory? && (e.read.code == 404 || e.read.code == 416) { flags := flags.(unsafe := true); }
        return;
      }
      if !head && !e.copied { flags := flags.(unsafe := true); }
    }

    method Create(p: ObjectPath, r: Request, e: Env)
      modifies this
      ensures Abs() == Spec.Create(old(Abs()), hash, p, r, e)
    {
      var lock := IsLock(p);
      var limit := MAX_OBJECT;
      if lock {
        limit := MAX_LOCK;
        if p in locks || |locks| >= MAX_LOCKS { Deny(false); return; }
      }
      if r.length < 1 || r.length > limit || !e.bodyRead || !p.Object? || hash(r.body) != p.name { Deny(false); return; }
      Ask(e.read);
      if e.read != ReadStatus(404) {
        if e.read == ReadStatus(200) { Deny(false); }
        return;
      }
      if lock { locks := locks[p := false]; }
      Forward(Post(p, r.body), e.send);
      if e.send.Sent? && e.send.code == Some(200) && lock && e.live { locks := locks[p := true]; }
    }

    method RemoveLock(p: ObjectPath, e: Env)
      modifies this
      ensures Abs() == Spec.RemoveLock(old(Abs()), p, e)
    {
      if p !in locks || !locks[p] { Deny(false); return; }
      if !e.audited { return; }
      locks := locks[p := false];
      Forward(Delete(p), e.send);
    }

    method Serve(r: Request, e: Env)
      modifies this
      ensures Abs() == Spec.Serve(old(Abs()), hash, readOnly, r, e)
    {
      if closed || !e.active || !e.authenticated || r.path.None? { Deny(false); return; }
      if e.limited { Deny(true); return; }
      var p := r.path.value;
      if r.verb == GetMethod || (r.verb == HeadMethod && !p.Directory?) { Read(p, r.verb == HeadMethod, e); return; }
      if readOnly || (r.verb != PostMethod && r.verb != DeleteMethod) { Deny(false); return; }
      if p == Config || p.Directory? || p.kind == Keys || (r.verb == DeleteMethod && p.kind != Locks) { Deny(false); return; }
      if !e.turn { return; }
      if r.verb == DeleteMethod { RemoveLock(p, e); } else { Create(p, r, e); }
    }

    method Close()
      modifies this
      ensures Abs() == old(Abs()).(closed := true, locks := map[])
    {
      closed := true;
      locks := map[];
    }
  }
}
