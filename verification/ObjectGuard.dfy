/** Object names as the guard accepts them. */
module ObjectPaths {
  import opened Basics

  datatype Kind = Data | Index | Snapshots | Keys | Locks

  datatype ObjectPath = Config | Directory(kind: Kind) | Object(kind: Kind, name: string)

  const NAME_LENGTH := 64

  function KindName(k: Kind): string {
    match k
    case Data => "data"
    case Index => "index"
    case Snapshots => "snapshots"
    case Keys => "keys"
    case Locks => "locks"
  }

  predicate HexDigit(c: char) {
    '0' <= c <= '9' || 'a' <= c <= 'f'
  }

  predicate ObjectName(s: string) {
    |s| == NAME_LENGTH && forall i :: 0 <= i < |s| ==> HexDigit(s[i])
  }

  function Render(o: ObjectPath): string {
    match o
    case Config => "config"
    case Directory(k) => KindName(k) + "/"
    case Object(k, name) => KindName(k) + "/" + name
  }

  /** The position of the first slash. */
  function Slash(s: string): (i: nat)
    ensures i <= |s| && (i < |s| ==> s[i] == '/') && forall j :: 0 <= j < i ==> s[j] != '/'
  {
    if s == "" || s[0] == '/' then 0 else 1 + Slash(s[1..])
  }

  function KindOf(s: string): Option<Kind> {
    if s == "data" then Some(Data)
    else if s == "index" then Some(Index)
    else if s == "snapshots" then Some(Snapshots)
    else if s == "keys" then Some(Keys)
    else if s == "locks" then Some(Locks)
    else None
  }

  /** `plain` says that the request line holds nothing but a path. */
  function Parse(prefix: string, path: string, plain: bool): Option<ObjectPath> {
    if !plain || !(prefix <= path) then None
    else
      var rest := path[|prefix|..];
      if rest == "config" then Some(Config)
      else
        var i := Slash(rest);
        if i == |rest| || KindOf(rest[..i]).None? then None
        else
          var kind, name := KindOf(rest[..i]).value, rest[i + 1..];
          if name == "" then Some(Directory(kind)) else if ObjectName(name) then Some(Object(kind, name)) else None
  }

  predicate Valid(o: ObjectPath) {
    o.Object? ==> ObjectName(o.name)
  }

  lemma KindsHaveNoSlash(k: Kind)
    ensures forall i :: 0 <= i < |KindName(k)| ==> KindName(k)[i] != '/'
    ensures KindOf(KindName(k)) == Some(k)
  {
    match k
    case Data => case Index => case Snapshots => case Keys => case Locks =>
  }

  lemma SlashAt(s: string, i: nat)
    requires i < |s| && s[i] == '/' && forall j :: 0 <= j < i ==> s[j] != '/'
    ensures Slash(s) == i
  {
  }

  lemma KindRoundTrip(s: string)
    requires KindOf(s).Some?
    ensures KindName(KindOf(s).value) == s
  {
  }

  lemma RenderedParts(o: ObjectPath)
    requires o != Config
    ensures var k := KindName(o.kind);
            Slash(Render(o)) == |k| < |Render(o)| && Render(o)[..|k|] == k && Render(o) != "config" &&
            Render(o)[|k| + 1..] == if o.Object? then o.name else ""
  {
    hide KindName, KindOf, Slash;
    var k := KindName(o.kind);
    KindsHaveNoSlash(o.kind);
    assert Render(o) == k + "/" + if o.Object? then o.name else "";
    hide Render;
    assert Render(o)[|k|] == '/' && Render(o)[..|k|] == k;
    SlashAt(Render(o), |k|);
    ConfigHasNoSlash(Render(o), |k|);
  }

  lemma ConfigHasNoSlash(s: string, i: nat)
    requires i < |s| && s[i] == '/'
    ensures s != "config"
  {
    assert forall j :: 0 <= j < 6 ==> "config"[j] != '/';
  }

  lemma ParseRendered(prefix: string, o: ObjectPath)
    requires Valid(o)
    ensures Parse(prefix, prefix + Render(o), true) == Some(o)
  {
    assert (prefix + Render(o))[|prefix|..] == Render(o);
    if o != Config {
      KindsHaveNoSlash(o.kind);
      RenderedParts(o);
      hide KindName, KindOf, Render, Slash;
    }
  }

  lemma CutAtSlash(rest: string, i: nat)
    requires i < |rest| && rest[i] == '/'
    ensures rest == rest[..i] + "/" + rest[i + 1..] && (rest[i + 1..] == "" ==> rest == rest[..i] + "/")
  {
  }

  lemma ParsedRenders(prefix: string, path: string, plain: bool, o: ObjectPath)
    requires Parse(prefix, path, plain) == Some(o)
    ensures plain && path == prefix + Render(o) && Valid(o)
  {
    hide KindOf, KindName, ObjectName, Slash;
    var rest := path[|prefix|..];
    assert path == prefix + rest;
    if rest != "config" {
      var i := Slash(rest);
      KindRoundTrip(rest[..i]);
      CutAtSlash(rest, i);
    }
  }

  /** A request reaches exactly the objects under its session's prefix, each under one spelling. */
  lemma {:induction false} ParseExact(prefix: string, path: string, plain: bool, o: ObjectPath)
    ensures Parse(prefix, path, plain) == Some(o) <==> plain && path == prefix + Render(o) && Valid(o)
  {
    hide Parse, Render, Valid;
    if plain && path == prefix + Render(o) && Valid(o) { ParseRendered(prefix, o); }
    if Parse(prefix, path, plain) == Some(o) { ParsedRenders(prefix, path, plain, o); }
  }
}

/**
  The append-only guard of one backup session in front of a faithful backend: reads
  tell the truth, a write confirmed with 200 took effect, and any other write may
  take effect now, later or never.
 */
module GuardSpec {
  import opened Basics
  import opened ObjectPaths

  const MAX_OBJECT := 33554432
  const MAX_LOCK := 65536
  const MAX_LOCKS := 1024

  datatype Flags = Flags(unavailable: bool, rateLimited: bool, unsafe: bool)

  function Code(f: Flags): Option<Hint> {
    if f.unsafe then None
    else if f.rateLimited then Some(RateLimited)
    else if f.unavailable then Some(Hint.Unavailable)
    else None
  }

  datatype Mutation = Post(path: ObjectPath, body: string) | Delete(path: ObjectPath)

  /** A mutation that left the gateway, and whether the backend confirmed it. */
  datatype Forward = Forward(m: Mutation, confirmed: bool)

  datatype World = World(locks: map<ObjectPath, bool>, flags: Flags, closed: bool,
                         backend: map<ObjectPath, string>, late: set<Mutation>, history: seq<Forward>)

  // ----- backend requests -----

  datatype ReadFate = ReadGuarded | ReadUnsent | ReadError(soft: bool) | ReadStatus(code: nat)

  datatype Effect = Now | Later | Never

  /** `code` is None for a transport error. */
  datatype SendFate = SendGuarded | Unsent | Sent(code: Option<nat>, effect: Effect)

  predicate TruthfulRead(w: World, p: ObjectPath, f: ReadFate) {
    && (f == ReadStatus(404) ==> p !in w.backend)
    && (f == ReadStatus(200) && p.Object? ==> p in w.backend)
  }

  predicate TruthfulSend(f: SendFate) {
    f.Sent? && f.code == Some(200) ==> f.effect == Now
  }

  function Unsafe(f: Flags): Flags {
    f.(unsafe := true)
  }

  function ObserveRead(f: Flags, r: ReadFate): Flags {
    match r
    case ReadGuarded => Unsafe(f)
    case ReadUnsent => f
    case ReadError(soft) => if soft then f.(unavailable := true) else Unsafe(f)
    case ReadStatus(code) =>
      if code in {200, 206, 404, 416} then f
      else if code == 429 then f.(rateLimited := true)
      else if code in {500, 502, 503, 504} then f.(unavailable := true)
      else Unsafe(f)
  }

  function ApplyMutation(b: map<ObjectPath, string>, m: Mutation): map<ObjectPath, string> {
    match m
    case Post(p, body) => b[p := body]
    case Delete(p) => b - {p}
  }

  predicate SnapshotWrite(m: Mutation) {
    m.Post? && m.path.Object? && m.path.kind == Snapshots
  }

  function Send(w: World, m: Mutation, f: SendFate): World {
    match f
    case SendGuarded => w.(flags := Unsafe(w.flags))
    case Unsent => w
    case Sent(code, effect) =>
      w.(flags := if SnapshotWrite(m) || code != Some(200) then Unsafe(w.flags) else w.flags,
         backend := if effect == Now then ApplyMutation(w.backend, m) else w.backend,
         late := if effect == Later then w.late + {m} else w.late,
         history := w.history + [Forward(m, code == Some(200))])
  }

  // ----- one request -----

  datatype Verb = GetMethod | HeadMethod | PostMethod | DeleteMethod | OtherMethod

  /** `path` is what the guard parsed, None if it parsed nothing; `length` is the declared size of the body. */
  datatype Request = Request(verb: Verb, path: Option<ObjectPath>, length: int, body: string)

  /** What the session finds while it serves: its own state, limits, the body, the audit and the backend. */
  datatype Env = Env(active: bool, authenticated: bool, limited: bool, turn: bool, bodyRead: bool, audited: bool,
                     copied: bool, read: ReadFate, send: SendFate, live: bool)

  function Deny(w: World, limited: bool): World {
    w.(flags := if limited then w.flags.(rateLimited := true) else Unsafe(w.flags))
  }

  function Read(w: World, p: ObjectPath, head: bool, e: Env): World {
    var f := ObserveRead(w.flags, e.read);
    if !e.read.ReadStatus? then w.(flags := f)
    else if e.read.code != 200 && e.read.code != 206 then
      if p.Directory? && e.read.code in {404, 416} then w.(flags := Unsafe(f)) else w.(flags := f)
    else if !head && !e.copied then w.(flags := Unsafe(f))
    else w.(flags := f)
  }

  function LimitOf(p: ObjectPath): int {
    if p.Object? && p.kind == Locks then MAX_LOCK else MAX_OBJECT
  }

  predicate IsLock(p: ObjectPath) {
    p.Object? && p.kind == Locks
  }

  predicate StaleLock(w: World, p: ObjectPath) {
    IsLock(p) && (p in w.locks || |w.locks| >= MAX_LOCKS)
  }

  /** Every condition that must hold before a body may leave for the backend. */
  predicate Creates(w: World, hash: string -> string, p: ObjectPath, r: Request, e: Env) {
    && p.Object? && !StaleLock(w, p) && 1 <= r.length <= LimitOf(p) && e.bodyRead && hash(r.body) == p.name
    && e.read == ReadStatus(404)
  }

  function Create(w: World, hash: string -> string, p: ObjectPath, r: Request, e: Env): World {
    if !p.Object? || StaleLock(w, p) || r.length < 1 || r.length > LimitOf(p) || !e.bodyRead || hash(r.body) != p.name
    then Deny(w, false)
    else
      var probed := w.(flags := ObserveRead(w.flags, e.read));
      if e.read == ReadStatus(200) then Deny(probed, false)
      else if e.read != ReadStatus(404) then probed
      else
        var reserved := if IsLock(p) then probed.(locks := probed.locks[p := false]) else probed;
        var sent := Send(reserved, Post(p, r.body), e.send);
        if IsLock(p) && e.send.Sent? && e.send.code == Some(200) && e.live then sent.(locks := sent.locks[p := true]) else sent
  }

  function RemoveLock(w: World, p: ObjectPath, e: Env): World {
    if p !in w.locks || !w.locks[p] then Deny(w, false)
    else if !e.audited then w
    else Send(w.(locks := w.locks[p := false]), Delete(p), e.send)
  }

  function Serve(w: World, hash: string -> string, readOnly: bool, r: Request, e: Env): World {
    if w.closed || !e.active || !e.authenticated || r.path.None? then Deny(w, false)
    else if e.limited then Deny(w, true)
    else
      var p := r.path.value;
      if r.verb == GetMethod || (r.verb == HeadMethod && !p.Directory?) then Read(w, p, r.verb == HeadMethod, e)
      else if readOnly || (r.verb != PostMethod && r.verb != DeleteMethod) then Deny(w, false)
      else if p == Config || p.Directory? || p.kind == Keys || (r.verb == DeleteMethod && p.kind != Locks) then Deny(w, false)
      else if !e.turn then w
      else if r.verb == DeleteMethod then RemoveLock(w, p, e)
      else Create(w, hash, p, r, e)
  }

  // ----- runs -----

  datatype Event = Requested(request: Request, env: Env) | Arrives(m: Mutation) | Close

  predicate Possible(w: World, e: Event) {
    match e
    case Requested(r, x) => TruthfulSend(x.send) && (r.path.Some? ==> TruthfulRead(w, r.path.value, x.read))
    case Arrives(m) => m in w.late
    case Close => true
  }

  function Advance(w: World, hash: string -> string, readOnly: bool, e: Event): World {
    match e
    case Requested(r, x) => Serve(w, hash, readOnly, r, x)
    case Arrives(m) => w.(backend := ApplyMutation(w.backend, m), late := w.late - {m})
    case Close => w.(closed := true, locks := map[])
  }

  function Start(base: map<ObjectPath, string>): World {
    World(map[], Flags(false, false, false), false, base, {}, [])
  }

  function Run(base: map<ObjectPath, string>, hash: string -> string, readOnly: bool, es: seq<Event>): World {
    if es == [] then Start(base) else Advance(Run(base, hash, readOnly, es[..|es| - 1]), hash, readOnly, es[|es| - 1])
  }

  ghost predicate PossibleRun(base: map<ObjectPath, string>, hash: string -> string, readOnly: bool, es: seq<Event>) {
    es == [] || (PossibleRun(base, hash, readOnly, es[..|es| - 1]) &&
                 Possible(Run(base, hash, readOnly, es[..|es| - 1]), es[|es| - 1]))
  }

  /** The guard of a session that started on some backend and served some requests, all of them counted. */
  ghost predicate Reached(hash: string -> string, w: World) {
    exists base, es :: PossibleRun(base, hash, false, es) && w == Run(base, hash, false, es)
  }

  lemma ReachedStart(hash: string -> string, base: map<ObjectPath, string>)
    ensures Reached(hash, Start(base))
  {
    assert PossibleRun(base, hash, false, []) && Run(base, hash, false, []) == Start(base);
  }

  lemma ReachedStep(hash: string -> string, w: World, e: Event)
    requires Reached(hash, w) && Possible(w, e)
    ensures Reached(hash, Advance(w, hash, false, e))
  {
    hide Advance, Possible, Start;
    var base, es :| PossibleRun(base, hash, false, es) && w == Run(base, hash, false, es);
    var more := es + [e];
    assert more[..|more| - 1] == es && more[|more| - 1] == e;
    assert PossibleRun(base, hash, false, more) && Run(base, hash, false, more) == Advance(w, hash, false, e);
  }
}
